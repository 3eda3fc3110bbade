/**
 * Cell values both report modes compute the same way: the text of a
 * nested reference, the description fallback, the "only when positive"
 * rule for amount columns and the savings rule.
 */
module Cells {
  import opened Records

  /** `contract.get('Supplier', {}).get('nameRu', '') if contract.get('Supplier') else ''`:
      an empty text when the reference is null, otherwise its `nameRu`
      (which may itself be null). */
  function RefName(r: Option<NamedRef>): Option<string>
  {
    match r
    case None => Some("")
    case Some(ref) => ref.nameRu
  }

  /** Python truthiness of a text field: null and "" are false. */
  predicate NonEmpty(t: Option<string>)
  {
    t.Some? && t.value != ""
  }

  /** `descriptionRu or trdBuyNameRu or ''`. */
  function Description(c: Contract): string
  {
    if NonEmpty(c.descriptionRu) then c.descriptionRu.value
    else if NonEmpty(c.trdBuyNameRu) then c.trdBuyNameRu.value
    else ""
  }

  /** The description is the first non-empty of the two texts, and empty
      only when both are null or empty. */
  lemma DescriptionFallback(c: Contract)
    ensures Description(c) == "" <==> !NonEmpty(c.descriptionRu) && !NonEmpty(c.trdBuyNameRu)
    ensures NonEmpty(c.descriptionRu) ==> Description(c) == c.descriptionRu.value
    ensures !NonEmpty(c.descriptionRu) && NonEmpty(c.trdBuyNameRu) ==> Description(c) == c.trdBuyNameRu.value
  {
  }

  /** `x if x > 0 else None`: an amount column is empty unless positive. */
  function Positive(x: real): Option<real>
  {
    if x > 0.0 then Some(x) else None
  }

  /** `planned - actual if (planned > 0 and actual > 0) else None`. */
  function Savings(planned: real, actual: real): Option<real>
  {
    if planned > 0.0 && actual > 0.0 then Some(planned - actual) else None
  }

  /** The savings cell is filled exactly when both amount cells are, and
      then holds their difference; equal amounts give a filled 0, while an
      unknown amount gives an empty cell. */
  lemma SavingsMatchesColumns(planned: real, actual: real)
    ensures Savings(planned, actual).Some? <==> Positive(planned).Some? && Positive(actual).Some?
    ensures Savings(planned, actual).Some? ==>
              Savings(planned, actual).value == Positive(planned).value - Positive(actual).value
    ensures planned == actual > 0.0 ==> Savings(planned, actual) == Some(0.0)
    ensures planned <= 0.0 || actual <= 0.0 ==> Savings(planned, actual).None?
  {
  }
}
