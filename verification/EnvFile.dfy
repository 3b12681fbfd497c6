/**
 * updateEnvFile of agent-framework/routes/agent-utils.ts, which sets variables in the text of an environment file.
 *
 * A variable is set in the first line that assigns it, or in a line of its own at the end. All other lines keep their text and
 * their position, and writing the same variables again changes nothing.
 */
module EnvFile {
  import opened Common
  import opened Text

  type Variable = (string, string)

  predicate StartsWith(line: string, prefix: string) {
    |prefix| <= |line| && line[..|prefix|] == prefix
  }

  predicate Sets(line: string, key: string) {
    StartsWith(line, key + "=")
  }

  function Assignment(v: Variable): string {
    v.0 + "=" + v.1
  }

  /** findIndex: the first line that sets the key, or the number of lines. */
  function FirstFor(lines: seq<string>, key: string): (i: nat)
    ensures i <= |lines|
    ensures i < |lines| ==> Sets(lines[i], key)
    ensures forall j :: 0 <= j < i ==> !Sets(lines[j], key)
  {
    if lines == [] then 0 else if Sets(lines[0], key) then 0 else 1 + FirstFor(lines[1..], key)
  }

  function Upsert(lines: seq<string>, v: Variable): seq<string> {
    var i := FirstFor(lines, v.0);
    if i < |lines| then lines[i := Assignment(v)] else lines + [Assignment(v)]
  }

  function UpsertAll(lines: seq<string>, variables: seq<Variable>): seq<string> {
    if variables == [] then lines
    else Upsert(UpsertAll(lines, variables[..|variables| - 1]), variables[|variables| - 1])
  }

  function Closed(lines: seq<string>): seq<string> {
    if lines != [] && lines[|lines| - 1] == "" then lines else lines + [""]
  }

  function NewLines(content: string, variables: seq<Variable>): seq<string> {
    Closed(UpsertAll(Split(content, '\n'), variables))
  }

  /** What is written over a file with the given content. */
  function Updated(content: string, variables: seq<Variable>): string {
    Join(NewLines(content, variables), '\n')
  }

  /** existing is None when there is no such file; Object.entries gives the variables in some order. */
  method UpdateEnvFile(existing: Option<string>, variables: seq<Variable>) returns (written: string)
    ensures written == Updated(if existing.Some? then existing.value else "", variables)
  {
    var envContent := "";
    if existing.Some? {
      envContent := existing.value;
    }
    var updatedLines := Split(envContent, '\n');
    for n := 0 to |variables|
      invariant updatedLines == UpsertAll(Split(envContent, '\n'), variables[..n])
      invariant |updatedLines| > 0
    {
      assert variables[..n + 1][..n] == variables[..n];
      var (key, value) := variables[n];
      var lineIndex := FirstFor(updatedLines, key);
      if lineIndex < |updatedLines| {
        updatedLines := updatedLines[lineIndex := key + "=" + value];
      } else {
        updatedLines := updatedLines + [key + "=" + value];
      }
    }
    assert variables[..|variables|] == variables;
    if updatedLines[|updatedLines| - 1] != "" {
      updatedLines := updatedLines + [""];
    }
    return Join(updatedLines, '\n');
  }

  // ---------------------------------------------------------------- what the update means

  predicate IsKey(key: string) {
    '=' !in key && '\n' !in key
  }

  /** The variables of an environment file: distinct keys, each assignment on one line. */
  predicate Proper(variables: seq<Variable>) {
    && (forall i :: 0 <= i < |variables| ==> IsKey(variables[i].0) && '\n' !in variables[i].1)
    && (forall i, j :: 0 <= i < j < |variables| ==> variables[i].0 != variables[j].0)
  }

  predicate NoBreaks(lines: seq<string>) {
    forall i :: 0 <= i < |lines| ==> '\n' !in lines[i]
  }

  /** The key a line sets ends at its first '='. */
  lemma KeyEnds(line: string, key: string)
    requires Sets(line, key) && '=' !in key
    ensures line[..|key|] == key && line[|key|] == '=' && forall i :: 0 <= i < |key| ==> line[i] != '='
  {
  }

  lemma SetsOneKey(line: string, a: string, b: string)
    requires Sets(line, a) && Sets(line, b) && '=' !in a && '=' !in b
    ensures a == b
  {
    KeyEnds(line, a);
    KeyEnds(line, b);
  }

  lemma AssignmentSets(v: Variable, key: string)
    requires '=' !in v.0 && '=' !in key
    ensures Sets(Assignment(v), key) <==> key == v.0
  {
    assert Assignment(v)[..|v.0 + "="|] == v.0 + "=";
    if Sets(Assignment(v), key) { SetsOneKey(Assignment(v), key, v.0); }
  }

  lemma FirstIs(lines: seq<string>, key: string, i: nat)
    requires i <= |lines| && (i < |lines| ==> Sets(lines[i], key)) && forall j :: 0 <= j < i ==> !Sets(lines[j], key)
    ensures FirstFor(lines, key) == i
  {
  }

  /** Setting one variable leaves the first lines of the others where they are. */
  lemma UpsertOther(lines: seq<string>, v: Variable, key: string)
    requires '=' !in v.0 && '=' !in key && key != v.0
    ensures var f, r := FirstFor(lines, key), FirstFor(Upsert(lines, v), key);
            if f < |lines| then r == f && Upsert(lines, v)[f] == lines[f] else r == |Upsert(lines, v)|
  {
    var n := Upsert(lines, v);
    AssignmentSets(v, key);
    var i, f := FirstFor(lines, v.0), FirstFor(lines, key);
    if i < |lines| && Sets(lines[i], key) { SetsOneKey(lines[i], key, v.0); }
    FirstIs(n, key, if f < |lines| then f else |n|);
  }

  lemma UpsertSelf(lines: seq<string>, v: Variable)
    requires '=' !in v.0
    ensures var i := FirstFor(Upsert(lines, v), v.0);
            i == FirstFor(lines, v.0) && i < |Upsert(lines, v)| && Upsert(lines, v)[i] == Assignment(v)
  {
    AssignmentSets(v, v.0);
    FirstIs(Upsert(lines, v), v.0, FirstFor(lines, v.0));
  }

  /** The line at a position is the first that sets one of the variables. */
  ghost predicate Chosen(lines: seq<string>, variables: seq<Variable>, p: nat) {
    exists i :: 0 <= i < |variables| && FirstFor(lines, variables[i].0) == p
  }

  ghost predicate IsSet(lines: seq<string>, v: Variable) {
    var i := FirstFor(lines, v.0);
    i < |lines| && lines[i] == v.0 + "=" + v.1
  }

  /** A key that is not set keeps its first line, or its absence. */
  lemma {:induction false} OtherKey(lines: seq<string>, variables: seq<Variable>, key: string)
    requires Proper(variables) && IsKey(key) && forall i :: 0 <= i < |variables| ==> variables[i].0 != key
    ensures var f, r := FirstFor(lines, key), FirstFor(UpsertAll(lines, variables), key);
            if f < |lines| then r == f else r == |UpsertAll(lines, variables)|
    ensures |lines| <= |UpsertAll(lines, variables)|
  {
    if variables != [] {
      var init, v := variables[..|variables| - 1], variables[|variables| - 1];
      OtherKey(lines, init, key);
      UpsertOther(UpsertAll(lines, init), v, key);
    }
  }

  /** After the update the first line for every key reads key=value, at the first line for it before, if there was one. */
  lemma {:induction false} EveryKeySet(lines: seq<string>, variables: seq<Variable>, i: nat)
    requires Proper(variables) && i < |variables|
    ensures var key, n := variables[i].0, UpsertAll(lines, variables);
            && IsSet(n, variables[i])
            && (FirstFor(lines, key) < |lines| ==> FirstFor(n, key) == FirstFor(lines, key))
            && (FirstFor(lines, key) == |lines| ==> FirstFor(n, key) >= |lines|)
  {
    var init, v := variables[..|variables| - 1], variables[|variables| - 1];
    if i < |variables| - 1 {
      EveryKeySet(lines, init, i);
      UpsertOther(UpsertAll(lines, init), v, variables[i].0);
    } else {
      OtherKey(lines, init, v.0);
      UpsertSelf(UpsertAll(lines, init), v);
    }
  }

  /** Every line that is not the first for one of the keys keeps its text and its position. */
  lemma {:induction false} OtherLinesKept(lines: seq<string>, variables: seq<Variable>, p: nat)
    requires Proper(variables) && p < |lines| && !Chosen(lines, variables, p)
    ensures |lines| <= |UpsertAll(lines, variables)| && UpsertAll(lines, variables)[p] == lines[p]
  {
    if variables != [] {
      var init, v := variables[..|variables| - 1], variables[|variables| - 1];
      assert !Chosen(lines, init, p) by {
        forall i | 0 <= i < |init| ensures FirstFor(lines, init[i].0) != p {
          assert variables[i] == init[i];
        }
      }
      OtherLinesKept(lines, init, p);
      OtherKey(lines, init, v.0);
    }
  }

  /** The lines added are the assignments of the keys that were not set, in order. */
  function Missing(lines: seq<string>, variables: seq<Variable>): seq<string> {
    if variables == [] then []
    else
      var v := variables[|variables| - 1];
      Missing(lines, variables[..|variables| - 1]) + if FirstFor(lines, v.0) < |lines| then [] else [v.0 + "=" + v.1]
  }

  lemma {:induction false} MissingAppended(lines: seq<string>, variables: seq<Variable>)
    requires Proper(variables)
    ensures var n := UpsertAll(lines, variables); |lines| <= |n| && n[|lines|..] == Missing(lines, variables)
  {
    if variables != [] {
      var init, v := variables[..|variables| - 1], variables[|variables| - 1];
      MissingAppended(lines, init);
      OtherKey(lines, init, v.0);
      var before, n := UpsertAll(lines, init), UpsertAll(lines, variables);
      if FirstFor(lines, v.0) < |lines| {
        assert n[|lines|..] == before[|lines|..];
      } else {
        assert n[|lines|..] == before[|lines|..] + [Assignment(v)];
      }
    }
  }

  lemma {:induction false} StillNoBreaks(lines: seq<string>, variables: seq<Variable>)
    requires Proper(variables) && NoBreaks(lines)
    ensures NoBreaks(UpsertAll(lines, variables))
  {
    if variables != [] { StillNoBreaks(lines, variables[..|variables| - 1]); }
  }

  /** The lines of the file that is written. */
  lemma LinesWritten(content: string, variables: seq<Variable>)
    requires Proper(variables)
    ensures Split(Updated(content, variables), '\n') == NewLines(content, variables)
  {
    StillNoBreaks(Split(content, '\n'), variables);
    SplitJoin(NewLines(content, variables), '\n');
  }

  lemma ClosedKeepsFirst(lines: seq<string>, key: string)
    ensures FirstFor(lines, key) < |lines| ==> FirstFor(Closed(lines), key) == FirstFor(lines, key)
  {
  }

  /** Every variable is set by the first line for its key. */
  lemma UpdateSetsVariables(content: string, variables: seq<Variable>)
    requires Proper(variables)
    ensures forall v <- variables :: IsSet(Split(Updated(content, variables), '\n'), v)
  {
    LinesWritten(content, variables);
    var before, all := Split(content, '\n'), UpsertAll(Split(content, '\n'), variables);
    forall v | v in variables ensures IsSet(Closed(all), v) {
      var i :| 0 <= i < |variables| && variables[i] == v;
      EveryKeySet(before, variables, i);
      ClosedKeepsFirst(all, v.0);
    }
  }

  lemma ClosedParts(all: seq<string>, n: nat)
    requires n <= |all|
    ensures n <= |Closed(all)| && Closed(all)[..n] == all[..n] && Closed(all) == Closed(all[..n] + all[n..])
  {
  }

  lemma ClosedKeepsLines(lines: seq<string>, variables: seq<Variable>)
    requires Proper(variables)
    ensures var after := Closed(UpsertAll(lines, variables));
            |lines| <= |after| && forall p :: 0 <= p < |lines| && !Chosen(lines, variables, p) ==> after[p] == lines[p]
  {
    var all := UpsertAll(lines, variables);
    MissingAppended(lines, variables);
    forall p | 0 <= p < |lines| && !Chosen(lines, variables, p) ensures Closed(all)[p] == lines[p] {
      OtherLinesKept(lines, variables, p);
    }
  }

  /** The other lines stay as they are, and what follows them is the assignments that were missing and a line break. */
  lemma UpdateKeepsLines(content: string, variables: seq<Variable>)
    requires Proper(variables)
    ensures var before, after := Split(content, '\n'), Split(Updated(content, variables), '\n');
            && |before| <= |after|
            && (forall p :: 0 <= p < |before| && !Chosen(before, variables, p) ==> after[p] == before[p])
            && after == Closed(after[..|before|] + Missing(before, variables))
  {
    LinesWritten(content, variables);
    var before := Split(content, '\n');
    ClosedKeepsLines(before, variables);
    MissingAppended(before, variables);
    ClosedParts(UpsertAll(before, variables), |before|);
  }

  lemma {:induction false} JoinEnds(lines: seq<string>)
    requires lines != [] && lines[|lines| - 1] == ""
    ensures var text := Join(lines, '\n'); if |lines| == 1 then text == "" else text != "" && text[|text| - 1] == '\n'
  {
    if |lines| > 1 {
      JoinEnds(lines[1..]);
    }
  }

  lemma {:induction false} AllSetUnchanged(lines: seq<string>, variables: seq<Variable>)
    requires forall v <- variables :: IsSet(lines, v)
    ensures UpsertAll(lines, variables) == lines
  {
    if variables != [] {
      AllSetUnchanged(lines, variables[..|variables| - 1]);
      assert variables[|variables| - 1] in variables;
    }
  }

  lemma {:induction false} UpsertAllLonger(lines: seq<string>, variables: seq<Variable>)
    ensures |lines| <= |UpsertAll(lines, variables)|
    ensures lines == [""] && variables != [] ==> |UpsertAll(lines, variables)| > 1
  {
    if variables != [] {
      UpsertAllLonger(lines, variables[..|variables| - 1]);
      assert lines == [""] && |variables| == 1 ==> UpsertAll(lines, variables[..0]) == lines;
    }
  }

  /** The file ends with a line break, except that nothing written to an empty file leaves it empty. */
  lemma EndsWithBreakIff(content: string, variables: seq<Variable>)
    ensures var text := Updated(content, variables);
            (text != "" && text[|text| - 1] == '\n') <==> !(content == "" && variables == [])
  {
    var lines := Split(content, '\n');
    JoinEnds(NewLines(content, variables));
    UpsertAllLonger(lines, variables);
    if content != "" { JoinSplit(content, '\n'); }
  }

  /** Setting the same variables again changes nothing. */
  lemma UpdateIdempotent(content: string, variables: seq<Variable>)
    requires Proper(variables)
    ensures Updated(Updated(content, variables), variables) == Updated(content, variables)
  {
    LinesWritten(content, variables);
    UpdateSetsVariables(content, variables);
    AllSetUnchanged(NewLines(content, variables), variables);
  }

  // ---------------------------------------------------------------- reading the file

  /** Where the first '=' of a line is, or the length of the line. */
  function Equals(line: string): (i: nat)
    ensures i <= |line| && (forall j :: 0 <= j < i ==> line[j] != '=') && (i < |line| ==> line[i] == '=')
  {
    if line == "" || line[0] == '=' then 0 else 1 + Equals(line[1..])
  }

  lemma EqualsIs(line: string, i: nat)
    requires i < |line| && line[i] == '=' && forall j :: 0 <= j < i ==> line[j] != '='
    ensures Equals(line) == i
  {
    var k := Equals(line);
    assert k < |line| ==> line[k] == '=';
  }

  /** What a reader of environment files makes of a key: what follows the first '=' of the first line that has the key before it. */
  function Value(lines: seq<string>, key: string): Option<string> {
    if lines == [] then None
    else
      var line, i := lines[0], Equals(lines[0]);
      if i < |line| && line[..i] == key then Some(line[i + 1..]) else Value(lines[1..], key)
  }

  function ReadVariable(content: string, key: string): Option<string> {
    Value(Split(content, '\n'), key)
  }

  /** A line in three parts. */
  lemma Parts(line: string, i: nat)
    requires i < |line|
    ensures line == line[..i] + [line[i]] + line[i + 1..]
  {
  }

  lemma SetIsRead(line: string, key: string)
    requires '=' !in key && Sets(line, key)
    ensures Equals(line) == |key| < |line| && line[..|key|] == key && line == key + "=" + line[|key| + 1..]
  {
    KeyEnds(line, key);
    EqualsIs(line, |key|);
    Parts(line, |key|);
  }

  lemma ReadIsSet(line: string, key: string)
    requires Equals(line) < |line| && line[..Equals(line)] == key
    ensures Sets(line, key)
  {
    var i := Equals(line);
    assert line[..i + 1] == line[..i] + [line[i]];
  }

  lemma SetsByReading(line: string, key: string)
    requires '=' !in key
    ensures Sets(line, key) <==> Equals(line) < |line| && line[..Equals(line)] == key
  {
    if Sets(line, key) {
      SetIsRead(line, key);
    } else if Equals(line) < |line| && line[..Equals(line)] == key {
      ReadIsSet(line, key);
    }
  }

  lemma {:induction false} ValueIsFirst(lines: seq<string>, key: string)
    requires '=' !in key
    ensures var i := FirstFor(lines, key);
            if i < |lines| then Equals(lines[i]) < |lines[i]| && Value(lines, key) == Some(lines[i][Equals(lines[i]) + 1..])
            else Value(lines, key) == None
  {
    if lines != [] {
      SetsByReading(lines[0], key);
      ValueIsFirst(lines[1..], key);
    }
  }

  lemma ClosedKeepsValue(lines: seq<string>, key: string)
    requires '=' !in key
    ensures Value(Closed(lines), key) == Value(lines, key)
  {
    ValueIsFirst(lines, key);
    ValueIsFirst(Closed(lines), key);
    ClosedKeepsFirst(lines, key);
    if FirstFor(lines, key) == |lines| { FirstIs(Closed(lines), key, |Closed(lines)|); }
  }

  lemma SetValueIsRead(lines: seq<string>, v: Variable)
    requires '=' !in v.0 && IsSet(lines, v)
    ensures Value(lines, v.0) == Some(v.1)
  {
    var line := lines[FirstFor(lines, v.0)];
    ValueIsFirst(lines, v.0);
    SetIsRead(line, v.0);
    assert line[|v.0| + 1..] == v.1;
  }

  lemma {:induction false} OtherValueKept(lines: seq<string>, variables: seq<Variable>, key: string)
    requires Proper(variables) && IsKey(key) && forall i :: 0 <= i < |variables| ==> variables[i].0 != key
    ensures Value(UpsertAll(lines, variables), key) == Value(lines, key)
  {
    if variables != [] {
      var init, v := variables[..|variables| - 1], variables[|variables| - 1];
      OtherValueKept(lines, init, key);
      UpsertOther(UpsertAll(lines, init), v, key);
      ValueIsFirst(UpsertAll(lines, init), key);
      ValueIsFirst(UpsertAll(lines, variables), key);
    }
  }

  /** Reading the file that was written gives every variable back, and for every other key what the file said before. */
  lemma UpdateReadsBack(content: string, variables: seq<Variable>, key: string)
    requires Proper(variables) && IsKey(key)
    ensures forall v <- variables :: v.0 == key ==> ReadVariable(Updated(content, variables), key) == Some(v.1)
    ensures (forall v <- variables :: v.0 != key) ==> ReadVariable(Updated(content, variables), key) == ReadVariable(content, key)
  {
    LinesWritten(content, variables);
    UpdateSetsVariables(content, variables);
    forall v | v in variables && v.0 == key ensures ReadVariable(Updated(content, variables), key) == Some(v.1) {
      SetValueIsRead(Split(Updated(content, variables), '\n'), v);
    }
    if forall v <- variables :: v.0 != key {
      OtherValueKept(Split(content, '\n'), variables, key);
      ClosedKeepsValue(UpsertAll(Split(content, '\n'), variables), key);
    }
  }
}
