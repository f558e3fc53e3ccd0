/**
 * `Ics`: an International Classification for Standards code, given either as
 * a dotted string "field.group.subgroup" or as separate field, group and
 * subgroup values. The code's description comes from an external lookup
 * table and is not modelled.
 */
module Classification {
  import opened Wrappers
  import opened Text

  datatype Ics = Ics(fieldcode: Option<string>, groupcode: Option<string>, subgroupcode: Option<string>)

  /** The message of the `ArgumentError` raised when neither a code nor a field is given. */
  const WrongArguments := "wrong arguments (should be string or { fieldcode: [String] }"

  /** Ruby's multiple assignment reads a missing element as nil. */
  function At(parts: seq<string>, k: nat): Option<string> {
    if k < |parts| then Some(parts[k]) else None
  }

  /**
   * `Ics.new(code, field:, group:, subgroup:)`: an error when neither `code`
   * nor `field` is given; otherwise a given `code` is split on `.` into
   * field, group and subgroup (overriding the keyword values), and without a
   * code the keyword values are kept as they are.
   */
  function NewIcs(code: Option<string>, field: Option<string>, group: Option<string>, subgroup: Option<string>)
    : (r: Result<Ics, string>)
    ensures r.Failure? <==> code.None? && field.None?
    ensures r.Failure? ==> r.error == WrongArguments
    ensures r.Success? && code.None? ==> r.value == Ics(field, group, subgroup)
    ensures r.Success? && code.Some? ==>
      var parts := Split(code.value, '.');
      r.value == Ics(At(parts, 0), At(parts, 1), At(parts, 2))
  {
    if code.None? && field.None? then Failure(WrongArguments)
    else if code.Some? then
      var parts := Split(code.value, '.');
      Success(Ics(At(parts, 0), At(parts, 1), At(parts, 2)))
    else Success(Ics(field, group, subgroup))
  }

  /** A dotted code "a.b.c" with dot-free components and a non-empty subgroup gives field a, group b and subgroup c. */
  lemma DottedCodeSplits(a: string, b: string, c: string, field: Option<string>, group: Option<string>, subgroup: Option<string>)
    requires '.' !in a && '.' !in b && '.' !in c && c != ""
    ensures NewIcs(Some(a + "." + b + "." + c), field, group, subgroup) == Success(Ics(Some(a), Some(b), Some(c)))
  {
    var code := a + "." + b + "." + c;
    assert Join([a, b, c], '.') == code by {
      assert Join([a, b, c], '.') == a + ['.'] + Join([b, c], '.');
      assert Join([b, c], '.') == b + ['.'] + Join([c], '.');
    }
    FieldsOfJoin([a, b, c], '.');
    assert Split(code, '.') == [a, b, c];
  }

  /** The code "35.240.70" given dotted or as separate field, group and subgroup values yields the same classification. */
  lemma ExampleCode()
    ensures NewIcs(Some("35.240.70"), None, None, None) == Success(Ics(Some("35"), Some("240"), Some("70")))
    ensures NewIcs(Some("35.240.70"), None, None, None) == NewIcs(None, Some("35"), Some("240"), Some("70"))
  {
    DottedCodeSplits("35", "240", "70", None, None, None);
    assert "35" + "." + "240" + "." + "70" == "35.240.70";
  }
}
