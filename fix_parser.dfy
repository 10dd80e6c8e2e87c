/** The tag=value parser of the FIX order gateway.  A message such as
    `8=FIX.4.2|35=D|55=AAPL|54=1|38=100` is split on `|` (SOH is accepted
    too), every non-empty field is cut at its first `=`, later values of a
    tag replace earlier ones, and the required tags must all be present
    with a non-empty value.  What Python raises as `ValueError` is a
    `Failure` carrying a `ParseError`. */
module FixParsing {
  import opened Wrappers
  import PyText

  /** The FIX field delimiter SOH (0x01). */
  const SOH: char := 1 as char

  /** The required tags when none are given: MsgType, Symbol, Side and
      OrderQty. */
  const DefaultRequiredTags: seq<string> := ["35", "55", "54", "38"]

  /** Why a message was refused. */
  datatype ParseError =
    | EmptyMessage
    | MalformedField(field: string)
    | MissingTag(tag: string)

  type Fields = map<string, string>

  /** `field.split("=", 1)` of a field holding `=`: its tag and value. */
  function TagValue(field: string): (tv: (string, string))
    requires '=' in field
    ensures field == tv.0 + "=" + tv.1 && '=' !in tv.0
  {
    PyText.SplitFirst(field, '=')
  }

  /** The fields of a message: SOH turned into `|`, then split on `|`. */
  function FieldsOf(raw: string): (fs: seq<string>)
    ensures |fs| >= 1
    ensures forall i :: 0 <= i < |fs| ==> '|' !in fs[i] && SOH !in fs[i]
  {
    var fs := PyText.Split(PyText.ReplaceChar(raw, SOH, '|'), '|');
    assert forall i :: 0 <= i < |fs| ==> SOH !in fs[i] by {
      forall i | 0 <= i < |fs|
        ensures SOH !in fs[i]
      {
        PyText.JoinContains(fs, '|', i);
      }
    }
    fs
  }

  /** The first loop of `parse` over `fields`: empty fields are skipped, a
      field without `=` fails, and every other field stores its value under
      its tag. */
  function Collect(fields: seq<string>): Result<Fields, ParseError>
    decreases |fields|
  {
    if fields == [] then Success(map[])
    else
      var prev := Collect(fields[..|fields| - 1]);
      var field := fields[|fields| - 1];
      if prev.Failure? || field == [] then prev
      else if '=' !in field then Failure(MalformedField(field))
      else
        var (tag, value) := TagValue(field);
        Success(prev.value[tag := value])
  }

  /** The first required tag that is absent or has an empty value. */
  function FirstMissing(required: seq<string>, data: Fields): (m: Option<string>)
    ensures m.None? <==> forall i :: 0 <= i < |required| ==> required[i] in data && data[required[i]] != ""
    ensures m.Some? ==> m.value in required && (m.value !in data || data[m.value] == "")
  {
    if required == [] then None
    else if required[0] !in data || data[required[0]] == "" then Some(required[0])
    else
      var m := FirstMissing(required[1..], data);
      assert forall i :: 1 <= i < |required| ==> required[i] == required[1..][i - 1];
      m
  }

  /** `parse`: the fields of a non-empty message, or the first error. */
  function ParseMessage(required: seq<string>, raw: string): Result<Fields, ParseError> {
    if raw == [] then Failure(EmptyMessage)
    else
      match Collect(FieldsOf(raw))
      case Failure(e) => Failure(e)
      case Success(data) =>
        match FirstMissing(required, data)
        case Some(tag) => Failure(MissingTag(tag))
        case None => Success(data)
  }

  /** The fields are collected one after another: a failure stays. */
  lemma {:induction false} CollectFailureStays(fields: seq<string>, n: nat)
    requires n <= |fields| && Collect(fields[..n]).Failure?
    ensures Collect(fields) == Collect(fields[..n])
    decreases |fields| - n
  {
    if n < |fields| {
      assert fields[..n + 1][..n] == fields[..n];
      CollectFailureStays(fields, n + 1);
    } else {
      assert fields[..n] == fields;
    }
  }

  /** A field is well formed when it is empty (skipped) or holds `=`. */
  predicate WellFormed(field: string) {
    field == [] || '=' in field
  }

  /** Collecting fails exactly when some field is non-empty without `=`,
      and then it names the first such field. */
  lemma {:induction false} CollectFailsExactly(fields: seq<string>)
    ensures Collect(fields).Failure? <==> exists i :: 0 <= i < |fields| && !WellFormed(fields[i])
    ensures Collect(fields).Failure? ==>
      exists i :: 0 <= i < |fields| && !WellFormed(fields[i]) && Collect(fields).error == MalformedField(fields[i])
        && forall j :: 0 <= j < i ==> WellFormed(fields[j])
    decreases |fields|
  {
    if fields != [] {
      var init := fields[..|fields| - 1];
      CollectFailsExactly(init);
      assert forall i :: 0 <= i < |init| ==> init[i] == fields[i];
      if Collect(init).Failure? {
        var i :| 0 <= i < |init| && !WellFormed(init[i]) && Collect(init).error == MalformedField(init[i])
          && forall j :: 0 <= j < i ==> WellFormed(init[j]);
        assert !WellFormed(fields[i]);
      } else {
        assert forall i :: 0 <= i < |init| ==> WellFormed(fields[i]);
      }
    }
  }

  /** Empty fields, such as the one after a trailing delimiter, are skipped. */
  lemma CollectSkipsEmpty(fields: seq<string>)
    ensures Collect(fields + [[]]) == Collect(fields)
  {
    assert (fields + [[]])[..|fields|] == fields;
  }

  /** A message ending in a delimiter parses like the message without it. */
  lemma ParseTrailingDelimiter(required: seq<string>, raw: string)
    requires raw != []
    ensures ParseMessage(required, raw + "|") == ParseMessage(required, raw)
  {
    FieldsTrailing(raw);
    CollectSkipsEmpty(FieldsOf(raw));
  }

  lemma FieldsTrailing(raw: string)
    ensures FieldsOf(raw + "|") == FieldsOf(raw) + [[]]
  {
    var msg := PyText.ReplaceChar(raw, SOH, '|');
    assert PyText.ReplaceChar(raw + "|", SOH, '|') == msg + "|";
    PyText.SplitTrailing(msg, '|');
  }

  /** SOH and `|` delimit fields alike: writing every SOH as `|` first
      changes nothing. */
  lemma ParseSohAsPipe(required: seq<string>, raw: string)
    ensures ParseMessage(required, PyText.ReplaceChar(raw, SOH, '|')) == ParseMessage(required, raw)
  {
    PyText.ReplaceCharIdempotent(raw, SOH, '|');
  }

  /** One `tag=value` field. */
  function Render(tag: string, value: string): string {
    tag + "=" + value
  }

  /** Tag/value pairs as a `|`-delimited message. */
  function Message(pairs: seq<(string, string)>): (fs: seq<string>)
    ensures |fs| == |pairs|
    ensures forall i :: 0 <= i < |pairs| ==> fs[i] == Render(pairs[i].0, pairs[i].1)
  {
    seq(|pairs|, i requires 0 <= i < |pairs| => Render(pairs[i].0, pairs[i].1))
  }

  /** The map Python's dict ends with after storing `pairs` in order: a
      repeated tag keeps its last value. */
  function ToMap(pairs: seq<(string, string)>): (m: Fields)
    ensures forall t :: t in m <==> exists i :: 0 <= i < |pairs| && pairs[i].0 == t
    decreases |pairs|
  {
    if pairs == [] then map[]
    else
      var init := pairs[..|pairs| - 1];
      var m := ToMap(init)[pairs[|pairs| - 1].0 := pairs[|pairs| - 1].1];
      assert forall i :: 0 <= i < |init| ==> init[i] == pairs[i];
      m
  }

  /** A tag's value is the one of its last occurrence. */
  lemma {:induction false} ToMapLastWins(pairs: seq<(string, string)>, i: nat)
    requires i < |pairs|
    requires forall j :: i < j < |pairs| ==> pairs[j].0 != pairs[i].0
    ensures pairs[i].0 in ToMap(pairs) && ToMap(pairs)[pairs[i].0] == pairs[i].1
    decreases |pairs|
  {
    if i < |pairs| - 1 {
      var init := pairs[..|pairs| - 1];
      ToMapLastWins(init, i);
    }
  }

  /** Pairs that can be written as fields: the tag has no `=` and neither
      part holds a delimiter. */
  predicate Writable(pairs: seq<(string, string)>) {
    forall i :: 0 <= i < |pairs| ==>
      && '=' !in pairs[i].0
      && '|' !in pairs[i].0 && '|' !in pairs[i].1
      && SOH !in pairs[i].0 && SOH !in pairs[i].1
  }

  lemma {:induction false} CollectMessage(pairs: seq<(string, string)>)
    requires Writable(pairs)
    ensures Collect(Message(pairs)) == Success(ToMap(pairs))
    decreases |pairs|
  {
    if pairs != [] {
      var n := |pairs| - 1;
      var fs := Message(pairs);
      assert fs[..n] == Message(pairs[..n]);
      CollectMessage(pairs[..n]);
      PyText.SplitFirstOf(pairs[n].0, pairs[n].1, '=');
    }
  }

  /** Round trip: a message written from writable pairs parses to the map
      those pairs build, or fails on the first required tag they leave
      absent or empty. */
  lemma ParseRendered(required: seq<string>, pairs: seq<(string, string)>)
    requires |pairs| >= 1 && Writable(pairs)
    ensures var raw := PyText.Join(Message(pairs), '|');
      ParseMessage(required, raw) ==
        match FirstMissing(required, ToMap(pairs))
        case Some(tag) => Failure(MissingTag(tag))
        case None => Success(ToMap(pairs))
  {
    var fs := Message(pairs);
    var raw := PyText.Join(fs, '|');
    PyText.JoinNotContains(fs, '|', SOH);
    PyText.ReplaceCharAbsent(raw, SOH, '|');
    PyText.SplitJoin(fs, '|');
    CollectMessage(pairs);
    assert raw != [] by {
      assert '=' in fs[0];
      PyText.JoinContains(fs, '|', 0);
    }
  }

  /** `FixParser`: the tags a message must carry. */
  class FixParser {
    const requiredTags: seq<string>

    /** `__init__`: no list, or an empty one, means the default tags. */
    constructor (requiredTags: Option<seq<string>>)
      ensures this.requiredTags ==
        if requiredTags.None? || requiredTags.value == [] then DefaultRequiredTags else requiredTags.value
    {
      this.requiredTags :=
        if requiredTags.None? || requiredTags.value == [] then DefaultRequiredTags else requiredTags.value;
    }

    /** `parse`: collect the fields in order, then check the required tags
        in order; the first problem is the error. */
    method Parse(raw: string) returns (r: Result<Fields, ParseError>)
      ensures r == ParseMessage(requiredTags, raw)
    {
      if raw == [] {
        return Failure(EmptyMessage);
      }
      var msg := PyText.ReplaceChar(raw, SOH, '|');
      var fields := PyText.Split(msg, '|');
      var data: Fields := map[];
      var i := 0;
      while i < |fields|
        invariant 0 <= i <= |fields|
        invariant Collect(fields[..i]) == Success(data)
      {
        var field := fields[i];
        assert fields[..i + 1][..i] == fields[..i];
        if field == [] {
          i := i + 1;
          continue;
        }
        if '=' !in field {
          CollectFailureStays(fields, i + 1);
          return Failure(MalformedField(field));
        }
        var (tag, value) := TagValue(field);
        data := data[tag := value];
        i := i + 1;
      }
      assert fields[..|fields|] == fields;
      var j := 0;
      while j < |requiredTags|
        invariant 0 <= j <= |requiredTags|
        invariant FirstMissing(requiredTags, data) == FirstMissing(requiredTags[j..], data)
      {
        var tag := requiredTags[j];
        if tag !in data || data[tag] == "" {
          return Failure(MissingTag(tag));
        }
        j := j + 1;
      }
      return Success(data);
    }
  }
}
