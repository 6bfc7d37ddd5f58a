/**
 * Identifier provenance. Every `saveX` of the data service decides between
 * update-by-id and insert by asking whether the record's id looks like one
 * the database issued (a 36-character UUID) or one the client made up
 * before the first save (`<kind>_<timestamp>`).
 */
module Ids {

  /** The length an id must exceed to count as server-issued. */
  const RealIdMinExclusive: nat := 20

  /** The delimiter that client-made ids carry. */
  const TempDelimiter: char := '_'

  /**
   * `isRealId`: an empty id is never real; otherwise the id is real when it
   * is longer than 20 characters and holds no underscore.
   */
  predicate IsRealId(id: string) {
    if id == "" then false
    else |id| > RealIdMinExclusive && TempDelimiter !in id
  }

  predicate IsHexDigit(c: char) {
    '0' <= c <= '9' || 'a' <= c <= 'f' || 'A' <= c <= 'F'
  }

  predicate IsDecimalDigit(c: char) {
    '0' <= c <= '9'
  }

  /** The textual form of a UUID: 8-4-4-4-12 hexadecimal digits. */
  predicate IsUuid(u: string) {
    && |u| == 36
    && (forall i :: 0 <= i < 36 ==>
          if i == 8 || i == 13 || i == 18 || i == 23 then u[i] == '-' else IsHexDigit(u[i]))
  }

  /** The id a client gives a record before its first save: kind, underscore, digits. */
  predicate IsTemporaryForm(id: string, kind: string, digits: string) {
    id == kind + [TempDelimiter] + digits && forall i :: 0 <= i < |digits| ==> IsDecimalDigit(digits[i])
  }

  /** A real id is a long id free of underscores, and every long underscore-free id is real. */
  lemma RealIdCharacterization(id: string)
    ensures IsRealId(id) <==> (|id| > 20 && forall i :: 0 <= i < |id| ==> id[i] != '_')
  {
    if |id| > 20 && forall i :: 0 <= i < |id| ==> id[i] != '_' {
      assert id != "";
    }
  }

  /** Every `<kind>_<digits>` id is classified as temporary, whatever its length. */
  lemma TemporaryIdIsNotReal(id: string, kind: string, digits: string)
    requires IsTemporaryForm(id, kind, digits)
    ensures !IsRealId(id)
  {
    assert id[|kind|] == TempDelimiter;
  }

  /** Every canonical UUID is classified as server-issued. */
  lemma UuidIsReal(u: string)
    requires IsUuid(u)
    ensures IsRealId(u)
  {
    forall i | 0 <= i < |u|
      ensures u[i] != TempDelimiter
    {
      if !(i == 8 || i == 13 || i == 18 || i == 23) {
        assert IsHexDigit(u[i]);
      }
    }
  }

  /** An id of at most 20 characters is temporary even without a delimiter. */
  lemma ShortIdIsNotReal(id: string)
    requires |id| <= 20
    ensures !IsRealId(id)
  {
  }
}
