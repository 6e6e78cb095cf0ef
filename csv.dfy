/** The comma-space separated row of variable values. */
module Csv {
  import opened Handles

  /** The text written between two neighbouring fields. */
  const Separator: string := ", "

  /** The fields in order, one Separator between each two, none before the first or after the last. */
  function Join(fields: seq<string>): string {
    if |fields| == 0 then ""
    else if |fields| == 1 then fields[0]
    else fields[0] + Separator + Join(fields[1..])
  }

  /** The value text of each variable, in array order, duplicates of a sensor included. */
  function ValueStrings(vs: seq<Variable>): seq<string> {
    seq(|vs|, i requires 0 <= i < |vs| => vs[i].valueString)
  }

  /** Appending a field to a non-empty row appends a separator and the field. */
  lemma {:induction false} JoinSnoc(fields: seq<string>, f: string)
    requires |fields| > 0
    ensures Join(fields + [f]) == Join(fields) + Separator + f
  {
    if |fields| > 1 {
      JoinSnoc(fields[1..], f);
      assert (fields + [f])[1..] == fields[1..] + [f];
    }
  }

  /** Position of the first Separator in s, or |s| when there is none. */
  function SeparatorAt(s: string): (k: nat)
    ensures k <= |s|
    ensures k < |s| ==> k + 2 <= |s| && s[k] == ',' && s[k + 1] == ' '
    ensures forall j :: 0 <= j < k && j + 1 < |s| ==> !(s[j] == ',' && s[j + 1] == ' ')
  {
    if |s| < 2 then |s|
    else if s[0] == ',' && s[1] == ' ' then 0
    else 1 + SeparatorAt(s[1..])
  }

  /** A row cut at every Separator. */
  function Split(s: string): seq<string>
    decreases |s|
  {
    var k := SeparatorAt(s);
    if k == |s| then [s] else [s[..k]] + Split(s[k + 2..])
  }

  /** No field holds a comma. */
  predicate CommaFree(fields: seq<string>) {
    forall i :: 0 <= i < |fields| ==> ',' !in fields[i]
  }

  /** The first separator of `f + Separator + rest` is the one after f, when f holds no comma. */
  lemma SeparatorAfterField(f: string, rest: string)
    requires ',' !in f
    ensures SeparatorAt(f + Separator + rest) == |f|
  {
    var s := f + Separator + rest;
    assert s[|f|] == ',' && s[|f| + 1] == ' ';
  }

  /** A field without a comma holds no Separator. */
  lemma {:induction false} NoSeparatorInField(f: string)
    requires ',' !in f
    ensures SeparatorAt(f) == |f|
  {
    if |f| >= 2 {
      assert f[0] != ',';
      assert ',' !in f[1..];
      NoSeparatorInField(f[1..]);
    }
  }

  /** Splitting a row of comma-free fields gives the fields back: the row has one column per field,
      in order. (An empty list of fields and a single empty field both give the empty row.) */
  lemma {:induction false} SplitJoin(fields: seq<string>)
    requires |fields| > 0 && CommaFree(fields)
    ensures Split(Join(fields)) == fields
  {
    var f := fields[0];
    assert ',' !in f;
    if |fields| == 1 {
      NoSeparatorInField(f);
    } else {
      var tail := fields[1..];
      var rest := Join(tail);
      var s := f + Separator + rest;
      assert Join(fields) == s;
      SeparatorAfterField(f, rest);
      assert s[..|f|] == f;
      assert s[|f| + 2..] == rest;
      assert Split(s) == [f] + Split(rest);
      assert CommaFree(tail);
      SplitJoin(tail);
      assert fields == [f] + tail;
    }
  }
}
