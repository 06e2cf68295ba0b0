/** Geography.cs: the city/county classifier for an order's location cell. */
module Geography {
  import opened Wrappers
  import opened Text
  import opened Cells

  /** `string.IsNullOrWhiteSpace`; `None` is a null string. */
  predicate IsNullOrWhiteSpace(location: Option<string>) {
    location.None? || forall i :: 0 <= i < |location.value| ==> IsWhiteSpace(location.value[i])
  }

  /** `Geography.IsCity`: null, empty or blank input is an `ArgumentNullException`;
      anything whose lower-case form is neither "city" nor "county" is an
      `ArgumentException`; otherwise the answer is whether it is "city". */
  function IsCity(location: Option<string>): (r: Result<bool, Failure>)
    ensures r == Err(ArgumentNull("location")) <==> IsNullOrWhiteSpace(location)
    ensures r == Err(Argument("location")) <==>
              !IsNullOrWhiteSpace(location) && Lower(location.value) != "city" && Lower(location.value) != "county"
    ensures r == Ok(true) <==> location.Some? && Lower(location.value) == "city"
    ensures r == Ok(false) <==> location.Some? && Lower(location.value) == "county"
  {
    if IsNullOrWhiteSpace(location) then
      BlankIsNoPlace(location);
      Err(ArgumentNull("location"))
    else if Lower(location.value) != "city" && Lower(location.value) != "county" then
      Err(Argument("location"))
    else
      Ok(Lower(location.value) == "city")
  }

  /** A blank string lower-cases to neither "city" nor "county". */
  lemma BlankIsNoPlace(location: Option<string>)
    requires IsNullOrWhiteSpace(location)
    ensures location.Some? ==> Lower(location.value) != "city" && Lower(location.value) != "county"
  {
    if location.Some? && |location.value| > 0 {
      assert Lower(location.value)[0] == LowerChar(location.value[0]);
    }
  }

  /** Lower-casing never turns a non-blank string into a blank one or back. */
  lemma {:induction false} BlankUnderLower(s: string)
    ensures IsNullOrWhiteSpace(Some(Lower(s))) <==> IsNullOrWhiteSpace(Some(s))
  {
    forall i | 0 <= i < |s|
      ensures IsWhiteSpace(Lower(s)[i]) <==> IsWhiteSpace(s[i])
    {
      assert Lower(s)[i] == LowerChar(s[i]);
    }
  }

  /** The classification depends only on the lower-case form of the input. */
  lemma IsCityCaseInvariant(a: string, b: string)
    requires Lower(a) == Lower(b)
    ensures IsCity(Some(a)) == IsCity(Some(b))
  {
    BlankUnderLower(a);
    BlankUnderLower(b);
  }

  /** The input is not trimmed: leading whitespace before a non-blank value is
      an `ArgumentException`, so " city" is rejected. */
  lemma NoTrimming(s: string)
    requires |s| > 0 && IsWhiteSpace(s[0]) && !IsNullOrWhiteSpace(Some(s))
    ensures IsCity(Some(s)) == Err(Argument("location"))
  {
    assert Lower(s)[0] == s[0];
  }

  lemma IsCityExamples()
    ensures IsCity(Some("City")) == Ok(true)
    ensures IsCity(Some("COUNTY")) == Ok(false)
    ensures IsCity(Some("Town")) == Err(Argument("location"))
    ensures IsCity(Some(" city")) == Err(Argument("location"))
    ensures IsCity(Some("")) == Err(ArgumentNull("location"))
    ensures IsCity(Some(" \t")) == Err(ArgumentNull("location"))
    ensures IsCity(None) == Err(ArgumentNull("location"))
  {
    assert Lower("City") == "city";
    assert Lower("COUNTY") == "county";
    assert Lower("Town")[0] == 't';
    assert !IsWhiteSpace(" city"[1]);
    NoTrimming(" city");
    assert !IsNullOrWhiteSpace(Some("Town")) by { assert !IsWhiteSpace("Town"[0]); }
  }
}
