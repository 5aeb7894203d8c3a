/**
 * The two text-field edit rules the forms use. A capped field takes the new
 * text only when it is short enough (`if (it.length <= n) x = it`); a digit
 * field does the same but keeps only the digits of the new text
 * (`if (it.length <= n) x = it.filter { it.isDigit() }`). The length is
 * checked on the raw text, before filtering.
 */
module Fields {
  import opened Text

  /** `if (novo.length <= max) novo else atual` */
  function EditCapped(atual: string, novo: string, max: nat): (r: string)
    ensures |novo| <= max ==> r == novo
    ensures |novo| > max ==> r == atual
  {
    if |novo| <= max then novo else atual
  }

  /** `if (novo.length <= max) novo.filter { it.isDigit() } else atual` */
  function EditDigits(atual: string, novo: string, max: nat): (r: string)
    ensures |novo| <= max ==> r == DigitsOnly(novo)
    ensures |novo| > max ==> r == atual
  {
    if |novo| <= max then DigitsOnly(novo) else atual
  }

  /** The field after a series of edits. */
  function AfterCapped(atual: string, edicoes: seq<string>, max: nat): string
    decreases |edicoes|
  {
    if edicoes == [] then atual else AfterCapped(EditCapped(atual, edicoes[0], max), edicoes[1..], max)
  }

  function AfterDigits(atual: string, edicoes: seq<string>, max: nat): string
    decreases |edicoes|
  {
    if edicoes == [] then atual else AfterDigits(EditDigits(atual, edicoes[0], max), edicoes[1..], max)
  }

  /** A capped field that starts within its cap stays within it, whatever is typed. */
  lemma {:induction false} CappedStaysWithin(atual: string, edicoes: seq<string>, max: nat)
    requires |atual| <= max
    ensures |AfterCapped(atual, edicoes, max)| <= max
    decreases |edicoes|
  {
    if edicoes != [] {
      CappedStaysWithin(EditCapped(atual, edicoes[0], max), edicoes[1..], max);
    }
  }

  /** A digit field that starts as digits within its cap stays so, whatever is typed. */
  lemma {:induction false} DigitsStayDigits(atual: string, edicoes: seq<string>, max: nat)
    requires AllDigits(atual) && |atual| <= max
    ensures AllDigits(AfterDigits(atual, edicoes, max)) && |AfterDigits(atual, edicoes, max)| <= max
    decreases |edicoes|
  {
    if edicoes != [] {
      DigitsStayDigits(EditDigits(atual, edicoes[0], max), edicoes[1..], max);
    }
  }

  /** The length is checked before filtering: a long text is refused even when its digits would fit. */
  lemma LengthCheckedBeforeFilter()
    ensures EditDigits("", "12 34", 4) == ""
    ensures EditDigits("", "1 2", 4) == "12"
  {
    var um: string := "1";
    assert AllDigits(um);
    DigitsOnlySnoc(um, ' ');
    assert um + [' '] == "1 ";
    DigitsOnlySnoc("1 ", '2');
    assert "1 " + ['2'] == "1 2";
  }
}
