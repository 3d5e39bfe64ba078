/**
 * Field paths for validation messages (`spec.sources[0].match["service"]`) and the ordered
 * list of violations that a validation collects.
 */
module Validators {
  import opened Wrappers

  // ---- decimal rendering of indices (Go's %d)

  function Digit(d: nat): char
    requires d < 10
  {
    "0123456789"[d]
  }

  predicate IsDigits(s: string)
  {
    forall i :: 0 <= i < |s| ==> '0' <= s[i] <= '9'
  }

  /** Shortest decimal numeral of `n`: digits only, no leading zero. */
  function NatToDecimal(n: nat): (s: string)
    ensures |s| >= 1 && IsDigits(s)
    ensures s[0] == '0' ==> n == 0
  {
    if n < 10 then [Digit(n)] else NatToDecimal(n / 10) + [Digit(n % 10)]
  }

  function DecimalValue(s: string): nat
    requires IsDigits(s)
  {
    if s == [] then 0 else DecimalValue(s[..|s| - 1]) * 10 + (s[|s| - 1] as int - '0' as int)
  }

  lemma {:induction false} DecimalRoundTrip(n: nat)
    ensures DecimalValue(NatToDecimal(n)) == n
  {
    var s := NatToDecimal(n);
    if n >= 10 {
      DecimalRoundTrip(n / 10);
      assert s[..|s| - 1] == NatToDecimal(n / 10);
    }
  }

  /** `%d` of a Go `int`: a minus sign before the magnitude of a negative number. */
  function IntToDecimal(i: int): string
  {
    if i < 0 then "-" + NatToDecimal(-i) else NatToDecimal(i)
  }

  // ---- paths

  /** Concatenation of the path's rendered elements. */
  function Concat(parts: seq<string>): string
  {
    if parts == [] then "" else Concat(parts[..|parts| - 1]) + parts[|parts| - 1]
  }

  lemma ConcatSnoc(parts: seq<string>, part: string)
    ensures Concat(parts + [part]) == Concat(parts) + part
  {
    assert (parts + [part])[..|parts|] == parts;
  }

  lemma ConcatSingle(parts: seq<string>)
    ensures |parts| == 1 ==> Concat(parts) == parts[0]
  {
    if |parts| == 1 {
      assert parts[..0] == [];
      assert Concat(parts) == "" + parts[0];
    }
  }

  /** A path into a resource, kept as its rendered elements; the empty path is Go's nil builder. */
  datatype PathBuilder = PathBuilder(elements: seq<string>)
  {
    /** The concatenation of the path's rendered elements; the empty path renders as "". */
    function String(): (s: string)
      ensures elements == [] ==> s == ""
      ensures |elements| == 1 ==> s == elements[0]
    {
      ConcatSingle(elements);
      Concat(elements)
    }

    function Field(name: string): (p: PathBuilder)
      ensures p.String() == if elements == [] then name else String() + "." + name
      ensures |p.elements| == |elements| + 1
    {
      var element := if elements == [] then name else "." + name;
      ConcatSnoc(elements, element);
      PathBuilder(elements + [element])
    }

    function Index(index: int): (p: PathBuilder)
      ensures p.String() == String() + "[" + IntToDecimal(index) + "]"
      ensures |p.elements| == |elements| + 1
    {
      var element := "[" + IntToDecimal(index) + "]";
      ConcatSnoc(elements, element);
      PathBuilder(elements + [element])
    }

    function Key(key: string): (p: PathBuilder)
      ensures p.String() == String() + "[\"" + key + "\"]"
      ensures |p.elements| == |elements| + 1
    {
      var element := "[\"" + key + "\"]";
      ConcatSnoc(elements, element);
      PathBuilder(elements + [element])
    }
  }

  function RootedAt(name: string): (p: PathBuilder)
    ensures p.String() == name
    ensures |p.elements| == 1
  {
    assert Concat([name]) == Concat([]) + name;
    PathBuilder([name])
  }

  lemma PathExamples()
    ensures PathBuilder([]).String() == ""
    ensures RootedAt("spec").String() == "spec"
    ensures RootedAt("spec").Field("sources").String() == "spec.sources"
    ensures RootedAt("spec").Field("sources").Index(0).String() == "spec.sources[0]"
  {
    var p := RootedAt("spec").Field("sources");
    assert p.String() == "spec.sources";
    assert IntToDecimal(0) == "0";
    assert p.Index(0).String() == "spec.sources" + "[" + "0" + "]";
  }

  // Solver helper: the literal concatenations the example below needs, kept apart
  // so that the example's proof stays small.
  lemma NestedPathLiterals()
    ensures "spec.sources[0]" + "." + "match" == "spec.sources[0].match"
    ensures "spec.sources[0].match" + "[\"" + "service" + "\"]" == "spec.sources[0].match[\"service\"]"
  {
  }

  lemma NestedPathExample()
    ensures RootedAt("spec").Field("sources").Index(0).Field("match").Key("service").String()
            == "spec.sources[0].match[\"service\"]"
  {
    PathExamples();
    NestedPathLiterals();
    var q := RootedAt("spec").Field("sources").Index(0).Field("match");
    assert q.String() == "spec.sources[0].match";
  }

  // ---- violations

  datatype Violation = Violation(field: string, message: string)

  /** Prefix that nests a violation's field under `rootField`. */
  function RootPrefix(rootField: string): string
  {
    if rootField == "" then "" else rootField + "."
  }

  function Nested(rootField: string, violations: seq<Violation>): (r: seq<Violation>)
  {
    seq(|violations|, i requires 0 <= i < |violations| =>
      Violation(RootPrefix(rootField) + violations[i].field, violations[i].message))
  }

  /** Nesting under the empty root changes nothing. */
  lemma NestedUnderEmptyRoot(violations: seq<Violation>)
    ensures Nested("", violations) == violations
  {
    forall i | 0 <= i < |violations| ensures Nested("", violations)[i] == violations[i] {
      assert RootPrefix("") + violations[i].field == violations[i].field;
    }
  }

  function Entry(v: Violation): string
  {
    v.field + ": " + v.message
  }

  /** The error text: each violation as "field: message", joined by "; " in insertion order. */
  function ErrorMessage(violations: seq<Violation>): string
  {
    if violations == [] then ""
    else if |violations| == 1 then Entry(violations[0])
    else ErrorMessage(violations[..|violations| - 1]) + "; " + Entry(violations[|violations| - 1])
  }

  /** Messages of two non-empty violation lists compose: appending violations appends their text. */
  lemma {:induction false} ErrorMessageAppend(a: seq<Violation>, b: seq<Violation>)
    requires a != [] && b != []
    ensures ErrorMessage(a + b) == ErrorMessage(a) + "; " + ErrorMessage(b)
  {
    var init, last := b[..|b| - 1], b[|b| - 1];
    assert (a + b)[..|a + b| - 1] == a + init;
    assert (a + b)[|a + b| - 1] == last;
    if init == [] {
      assert a + init == a;
    } else {
      ErrorMessageAppend(a, init);
      calc {
        ErrorMessage(a + b);
        ErrorMessage(a + init) + "; " + Entry(last);
        (ErrorMessage(a) + "; " + ErrorMessage(init)) + "; " + Entry(last);
        ErrorMessage(a) + "; " + (ErrorMessage(init) + "; " + Entry(last));
        ErrorMessage(a) + "; " + ErrorMessage(b);
      }
    }
  }

  class ValidationError {
    var violations: seq<Violation>

    constructor ()
      ensures violations == []
    {
      violations := [];
    }

    method AddViolation(field: string, message: string)
      modifies this
      ensures violations == old(violations) + [Violation(field, message)]
    {
      violations := violations + [Violation(field, message)];
    }

    /** The empty path (Go's nil builder) records the empty field. */
    method AddViolationAt(path: PathBuilder, message: string)
      modifies this
      ensures violations == old(violations) + [Violation(path.String(), message)]
      ensures path.elements == [] ==> violations[|violations| - 1].field == ""
    {
      AddViolation(path.String(), message);
    }

    /** Appends `other`'s violations, in order, with their fields nested under `rootField`. */
    method AddError(rootField: string, other: ValidationError)
      modifies this
      ensures violations == old(violations) + Nested(rootField, old(other.violations))
    {
      var nested := other.violations;
      var prefix := RootPrefix(rootField);
      for i := 0 to |nested|
        invariant violations == old(violations) + Nested(rootField, nested[..i])
      {
        assert Nested(rootField, nested[..i + 1]) == Nested(rootField, nested[..i]) + [Violation(prefix + nested[i].field, nested[i].message)];
        violations := violations + [Violation(prefix + nested[i].field, nested[i].message)];
      }
      assert nested[..|nested|] == nested;
    }

    /** Appends `other`'s violations unchanged to the end of the list. */
    method Add(other: ValidationError)
      modifies this
      ensures violations == old(violations) + old(other.violations)
    {
      NestedUnderEmptyRoot(other.violations);
      AddError("", other);
    }

    function HasViolations(): (b: bool)
      reads this
      ensures b <==> violations != []
    {
      |violations| > 0
    }

    /** Each violation as "field: message", joined by "; " in insertion order; empty iff no violations. */
    function Error(): (msg: string)
      reads this
      ensures msg == "" <==> violations == []
      ensures |violations| == 1 ==> msg == violations[0].field + ": " + violations[0].message
    {
      assert violations != [] ==> |Entry(violations[|violations| - 1])| >= 2;
      ErrorMessage(violations)
    }

    /** The error itself when something was recorded, and no error otherwise. */
    function OrNil(): (e: Option<ValidationError>)
      reads this
      ensures e.None? <==> violations == []
      ensures e.Some? ==> e.value == this
    {
      if HasViolations() then Some(this) else None
    }
  }

  lemma ErrorMessagePair(a: Violation, b: Violation)
    ensures ErrorMessage([a, b]) == Entry(a) + "; " + Entry(b)
  {
    assert [a, b][..1] == [a];
  }

  lemma ExampleNested()
    ensures Nested("address", [Violation("street", "invalid format")]) == [Violation("address.street", "invalid format")]
  {
    var street := [Violation("street", "invalid format")];
    assert RootPrefix("address") + "street" == "address.street";
    assert Nested("address", street)[0] == Violation("address.street", "invalid format");
  }

  // Solver helper: the literal concatenations the example below needs, kept apart
  // so that the example's proof stays small.
  lemma ExampleEntries()
    ensures Entry(Violation("name", "invalid name")) == "name: invalid name"
    ensures Entry(Violation("address.street", "invalid format")) == "address.street: invalid format"
  {
  }

  lemma ExampleMessage()
    ensures ErrorMessage([Violation("name", "invalid name"), Violation("address.street", "invalid format")])
            == "name: invalid name; address.street: invalid format"
  {
    ErrorMessagePair(Violation("name", "invalid name"), Violation("address.street", "invalid format"));
    ExampleEntries();
    assert "name: invalid name" + "; " + "address.street: invalid format" == "name: invalid name; address.street: invalid format";
  }

  /** A violation at "name" and a nested one at "street" under "address". */
  method ConstructErrorsExample() returns (hasViolations: bool, message: Option<string>)
    ensures hasViolations
    ensures message == Some("name: invalid name; address.street: invalid format")
  {
    var err := new ValidationError();
    err.AddViolation("name", "invalid name");
    var addressErr := new ValidationError();
    addressErr.AddViolation("street", "invalid format");
    assert err.violations == [Violation("name", "invalid name")];
    assert addressErr.violations == [Violation("street", "invalid format")];
    err.AddError("address", addressErr);
    hasViolations := err.HasViolations();
    var e := err.OrNil();
    message := if e.Some? then Some(e.value.Error()) else None;
    ExampleNested();
    ExampleMessage();
    assert err.violations == [Violation("name", "invalid name"), Violation("address.street", "invalid format")];
  }

  /** Adding two errors keeps the first's violations ahead of the second's. */
  method AddExample() returns (afterFirst: seq<Violation>, afterSecond: seq<Violation>)
    ensures afterFirst == [Violation("sources", "unknown error")]
    ensures afterSecond == [Violation("sources", "unknown error"), Violation("destinations", "yet another error")]
  {
    var err := new ValidationError();
    var err1 := new ValidationError();
    err1.AddViolationAt(RootedAt("sources"), "unknown error");
    var err2 := new ValidationError();
    err2.AddViolationAt(RootedAt("destinations"), "yet another error");
    err.Add(err1);
    afterFirst := err.violations;
    err.Add(err2);
    afterSecond := err.violations;
  }

  // Solver helper: the literal concatenations the example below needs, kept apart
  // so that the example's proof stays small.
  lemma SourcesPathLiterals()
    ensures "sources" + "[" + "0" + "]" == "sources[0]"
    ensures "sources[0]" + "." + "match" == "sources[0].match"
    ensures "sources[0].match" + "[\"" + "service" + "\"]" == "sources[0].match[\"service\"]"
  {
  }

  lemma SourcesPathExample()
    ensures RootedAt("sources").Index(0).Field("match").Key("service").String() == "sources[0].match[\"service\"]"
  {
    SourcesPathLiterals();
    assert IntToDecimal(0) == "0";
    var p := RootedAt("sources").Index(0);
    assert p.String() == "sources[0]";
    var q := p.Field("match");
    assert q.String() == "sources[0].match";
  }

  /** Violations at the nil path and at a nested path. */
  method AddViolationAtExample() returns (atNil: seq<Violation>, atPath: seq<Violation>)
    ensures atNil == [Violation("", "unknown error")]
    ensures atPath == [Violation("sources[0].match[\"service\"]", "unknown error")]
  {
    var err := new ValidationError();
    err.AddViolationAt(PathBuilder([]), "unknown error");
    atNil := err.violations;
    var other := new ValidationError();
    var path := RootedAt("sources").Index(0).Field("match").Key("service");
    SourcesPathExample();
    other.AddViolationAt(path, "unknown error");
    atPath := other.violations;
  }
}
