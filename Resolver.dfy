/** Resolution of a formatted ID such as `TC1234` to the reference of the work
    item it names (`getRef`). The local validation is modelled exactly; the
    remote query is an oracle from (item type, numeric ID) to its outcome. */
module Resolver {
  import opened Js

  /** `[A-Za-z]` */
  predicate IsLetter(c: char)
  {
    'A' <= c <= 'Z' || 'a' <= c <= 'z'
  }

  /** `\d`, which in a JavaScript regular expression is `[0-9]` */
  predicate IsDigit(c: char)
  {
    '0' <= c <= '9'
  }

  predicate AllLetters(s: string)
  {
    forall i :: 0 <= i < |s| ==> IsLetter(s[i])
  }

  predicate AllDigits(s: string)
  {
    forall i :: 0 <= i < |s| ==> IsDigit(s[i])
  }

  /** `s.replace(/^[A-Za-z]+/, '')`: the longest leading run of ASCII letters
      is removed, and nothing else. */
  function StripLetters(s: string): (r: string)
    ensures |r| <= |s| && r == s[|s| - |r|..]
    ensures AllLetters(s[..|s| - |r|])
    ensures r != "" ==> !IsLetter(r[0])
    decreases |s|
  {
    if s != "" && IsLetter(s[0]) then StripLetters(s[1..]) else s
  }

  /** The numeric ID a formatted ID is queried with, or None when no query is
      issued: the ID is missing or empty, or what remains after the leading
      letters is not a non-empty run of digits (`/^\d+$/`). */
  function NumericId(formattedID: Option<string>): (r: Option<string>)
    ensures formattedID == None || formattedID == Some("") ==> r == None
    ensures r.Some? ==>
      var id, n := formattedID.value, r.value;
      && n != "" && AllDigits(n)
      && |n| <= |id| && id == id[..|id| - |n|] + n
      && AllLetters(id[..|id| - |n|])
  {
    match formattedID
    case None => None
    case Some(id) =>
      if id == "" then None
      else
        var rest := StripLetters(id);
        if rest != "" && AllDigits(rest) then Some(rest) else None
  }

  /** Stripping a run of letters in front of a digit run leaves the digits. */
  lemma {:induction false} StripLettersBeforeDigits(letters: string, digits: string)
    requires AllLetters(letters) && digits != "" && AllDigits(digits)
    ensures StripLetters(letters + digits) == digits
  {
    if letters == "" {
      assert letters + digits == digits;
    } else {
      assert (letters + digits)[1..] == letters[1..] + digits;
      StripLettersBeforeDigits(letters[1..], digits);
    }
  }

  /** Converse of NumericId's contract: every ID of the shape
      `<letters><digits>` is queried with exactly its digits. Together the
      two say that a query is issued iff the ID has that shape. */
  lemma QueriesDigitsAfterLetters(letters: string, digits: string)
    requires AllLetters(letters) && digits != "" && AllDigits(digits)
    ensures NumericId(Some(letters + digits)) == Some(digits)
  {
    StripLettersBeforeDigits(letters, digits);
  }

  /** A character that is not a digit anywhere from the first non-letter on
      means no query is issued. */
  lemma NonDigitMeansNoQuery(id: string, j: nat, k: nat)
    requires j <= k < |id| && !IsLetter(id[j]) && !IsDigit(id[k])
    ensures NumericId(Some(id)) == None
  {
  }

  /** Leading zeros are kept: `TC0012` is queried as `0012`. */
  lemma ExampleLeadingZeros()
    ensures NumericId(Some("TC0012")) == Some("0012")
  {
    assert "TC" + "0012" == "TC0012";
    QueriesDigitsAfterLetters("TC", "0012");
  }

  /** An ID without a prefix is queried as it is. */
  lemma ExampleNoPrefix()
    ensures NumericId(Some("12")) == Some("12")
  {
  }

  /** A prefix with no digits after it issues no query. */
  lemma ExamplePrefixOnly()
    ensures NumericId(Some("TC")) == None
  {
  }

  /** A letter after the digits issues no query. */
  lemma ExampleTrailingLetter()
    ensures NumericId(Some("TC12a")) == None
  {
    NonDigitMeansNoQuery("TC12a", 2, 4);
  }

  /** What the query for `FormattedID = <numeric ID>` settles to: the `_ref`
      of each result, in the service's order, or a failure. */
  datatype QueryOutcome = QueryFailed | Results(refs: seq<string>)

  /** `getRef(type, formattedID)`: the reference of the first query result,
      and `''` on every other path. For a successful query that carries
      `Results`, an array of objects, it never rejects, so it is total here. */
  function GetRef(itemType: string, formattedID: Option<string>,
                  query: (string, string) -> QueryOutcome): (r: string)
    ensures r != "" ==>
      && NumericId(formattedID).Some?
      && query(itemType, NumericId(formattedID).value).Results?
      && |query(itemType, NumericId(formattedID).value).refs| > 0
      && r == query(itemType, NumericId(formattedID).value).refs[0]
    ensures NumericId(formattedID).Some? ==>
      var outcome := query(itemType, NumericId(formattedID).value);
      outcome.Results? && |outcome.refs| > 0 ==> r == outcome.refs[0]
  {
    match NumericId(formattedID)
    case None => ""
    case Some(n) =>
      match query(itemType, n)
      case QueryFailed => ""
      case Results(refs) => if |refs| > 0 then refs[0] else ""
  }

  /** Without a valid ID the query oracle is never consulted: any two oracles
      give the same (empty) reference. */
  lemma NoQueryForInvalidId(itemType: string, formattedID: Option<string>,
                            q1: (string, string) -> QueryOutcome,
                            q2: (string, string) -> QueryOutcome)
    requires NumericId(formattedID) == None
    ensures GetRef(itemType, formattedID, q1) == GetRef(itemType, formattedID, q2) == ""
  {
  }
}
