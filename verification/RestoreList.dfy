/**
 The restore list: the dump's table of contents with the entity type registry moved before all other table
 data, so that every row that refers to an entity type finds it.
 */
module RestoreList {
  import opened Text

  datatype Outcome =
    | Listed(text: string)
    | ActivityData
    | DuplicateRegistry
    | MissingRegistry

  // ---------- Lines ----------

  /** `strings.Join(lines, "\n")`. */
  function Join(lines: seq<string>): string
    requires |lines| >= 1
  {
    if |lines| == 1 then lines[0] else lines[0] + "\n" + Join(lines[1..])
  }

  function TrimNewline(s: string): string {
    if s != "" && s[|s| - 1] == '\n' then s[..|s| - 1] else s
  }

  function Lines(text: string): (lines: seq<string>)
    ensures |lines| >= 1
    ensures forall l | l in lines :: '\n' !in l
  {
    Split(TrimNewline(text), '\n')
  }

  lemma {:induction false} JoinSplit(s: string)
    ensures Join(Split(s, '\n')) == s
  {
    if s != "" {
      JoinSplit(s[1..]);
      assert s == [s[0]] + s[1..];
    }
  }

  lemma {:induction false} SplitPrefix(l: string, rest: string)
    requires '\n' !in l
    ensures Split(l + "\n" + rest, '\n') == [l] + Split(rest, '\n')
  {
    var s := l + "\n" + rest;
    if l == "" {
      assert s[1..] == rest;
    } else {
      SplitPrefix(l[1..], rest);
      assert s[1..] == l[1..] + "\n" + rest;
      assert l == [l[0]] + l[1..];
    }
  }

  lemma {:induction false} SplitLine(l: string)
    requires '\n' !in l
    ensures Split(l, '\n') == [l]
  {
    if l != "" {
      SplitLine(l[1..]);
      assert l == [l[0]] + l[1..];
    }
  }

  /** Lines written out with a final newline are read back as they were. */
  lemma {:induction false} LinesRoundTrip(lines: seq<string>)
    requires |lines| >= 1 && forall l | l in lines :: '\n' !in l
    ensures Lines(Join(lines) + "\n") == lines
  {
    var text := Join(lines) + "\n";
    assert TrimNewline(text) == Join(lines);
    SplitJoin(lines);
  }

  lemma {:induction false} SplitJoin(lines: seq<string>)
    requires |lines| >= 1 && forall l | l in lines :: '\n' !in l
    ensures Split(Join(lines), '\n') == lines
  {
    if |lines| == 1 {
      SplitLine(lines[0]);
    } else {
      SplitPrefix(lines[0], Join(lines[1..]));
      SplitJoin(lines[1..]);
    }
  }

  // ---------- Entries ----------

  function WordLength(s: string): (n: nat)
    ensures n <= |s|
    ensures s != "" && !IsSpace(s[0]) ==> n > 0
  {
    if s == "" || IsSpace(s[0]) then 0 else 1 + WordLength(s[1..])
  }

  /** `strings.Fields(s)`. */
  function Words(s: string): seq<string>
    decreases |s|
  {
    if s == "" then []
    else if IsSpace(s[0]) then Words(s[1..])
    else [s[..WordLength(s)]] + Words(s[WordLength(s)..])
  }

  predicate NamesTable(words: seq<string>, i: int) {
    0 <= i && i + 3 < |words| && words[i] == "TABLE" && words[i + 1] == "DATA"
  }

  /** Schema and table of the first TABLE DATA marker that both follow. */
  function TableDataFrom(words: seq<string>, i: nat): (r: Option<(string, string)>)
    ensures r.None? <==> forall j | i <= j :: !NamesTable(words, j)
    ensures r.Some? ==> exists j :: i <= j && NamesTable(words, j) && r.value == (words[j + 2], words[j + 3]) && forall k | i <= k < j :: !NamesTable(words, k)
    decreases |words| - i
  {
    if i + 3 >= |words| then None
    else if words[i] == "TABLE" && words[i + 1] == "DATA" then
      assert NamesTable(words, i);
      Some((words[i + 2], words[i + 3]))
    else
      TableDataFrom(words, i + 1)
  }

  function TableData(line: string): Option<(string, string)> {
    TableDataFrom(Words(line), 0)
  }

  method RestoreListTableData(line: string) returns (r: Option<(string, string)>)
    ensures r == TableData(line)
  {
    var fields := Words(line);
    var i := 0;
    while i + 3 < |fields|
      invariant 0 <= i && TableDataFrom(fields, i) == TableData(line)
    {
      if fields[i] == "TABLE" && fields[i + 1] == "DATA" {
        return Some((fields[i + 2], fields[i + 3]));
      }
      i := i + 1;
    }
    return None;
  }

  predicate IsTableData(line: string) { TableData(line).Some? }
  predicate IsActivity(line: string) { TableData(line) == Some(("radishnexus", "activity_items")) }
  predicate IsRegistry(line: string) { TableData(line) == Some(("radishnexus", "entity_types")) }

  // ---------- The verdict on a table of contents ----------

  datatype Verdict =
    | Seen(registry: Option<nat>, first: Option<nat>)
    | Refused(error: Outcome)

  /** What the loop knows after a prefix of the lines. */
  function Judge(lines: seq<string>): Verdict {
    if lines == [] then Seen(None, None)
    else
      var index := |lines| - 1;
      var line := lines[index];
      match Judge(lines[..index])
      case Refused(e) => Refused(e)
      case Seen(registry, first) =>
        if !IsTableData(line) then Seen(registry, first)
        else
          var first' := if first.None? then Some(index) else first;
          if IsActivity(line) then Refused(ActivityData)
          else if !IsRegistry(line) then Seen(registry, first')
          else if registry.Some? then Refused(DuplicateRegistry)
          else Seen(Some(index), first')
  }

  predicate FirstAt(lines: seq<string>, k: int) {
    0 <= k < |lines| && IsTableData(lines[k]) && forall i | 0 <= i < k :: !IsTableData(lines[i])
  }

  predicate OnlyRegistryAt(lines: seq<string>, k: int) {
    0 <= k < |lines| && IsRegistry(lines[k]) && forall i | 0 <= i < |lines| && i != k :: !IsRegistry(lines[i])
  }

  predicate NoActivity(lines: seq<string>) {
    forall i | 0 <= i < |lines| :: !IsActivity(lines[i])
  }

  /** The lines before index i hold nothing to refuse and line i is the first refused one. */
  ghost predicate RefusedAt(lines: seq<string>, i: int, error: Outcome) {
    && 0 <= i < |lines| && NoActivity(lines[..i])
    && (if error == ActivityData then
          IsActivity(lines[i]) && forall a, b | 0 <= a < b < i :: !(IsRegistry(lines[a]) && IsRegistry(lines[b]))
        else
          && error == DuplicateRegistry && IsRegistry(lines[i])
          && exists a :: OnlyRegistryAt(lines[..i], a))
  }

  /** The verdict in terms of where lines stand, not of how they were scanned. */
  ghost predicate Justified(lines: seq<string>, v: Verdict) {
    match v
    case Refused(error) => exists i :: RefusedAt(lines, i, error)
    case Seen(registry, first) =>
      && NoActivity(lines)
      && (match registry
          case Some(k) => OnlyRegistryAt(lines, k)
          case None => forall i | 0 <= i < |lines| :: !IsRegistry(lines[i]))
      && (match first
          case Some(k) => FirstAt(lines, k)
          case None => forall i | 0 <= i < |lines| :: !IsTableData(lines[i]))
  }

  lemma {:induction false} JudgeIsJustified(lines: seq<string>)
    ensures Justified(lines, Judge(lines))
  {
    hide TableData;
    if lines != [] {
      var index := |lines| - 1;
      var front := lines[..index];
      JudgeIsJustified(front);
      assert forall i | 0 <= i < index :: front[i] == lines[i];
      match Judge(front) {
        case Refused(error) =>
          var i :| RefusedAt(front, i, error);
          assert front[..i] == lines[..i];
          assert RefusedAt(lines, i, error);
        case Seen(registry, first) =>
          if IsActivity(lines[index]) {
            assert RefusedAt(lines, index, ActivityData);
          } else if IsRegistry(lines[index]) && registry.Some? {
            assert OnlyRegistryAt(lines[..index], registry.value);
            assert RefusedAt(lines, index, DuplicateRegistry);
          }
      }
    }
  }

  // ---------- The move ----------

  /** The lines with line `from` moved to index `to`, the others in their order. */
  function Moved(lines: seq<string>, from: nat, to: nat): seq<string>
    requires to <= from < |lines|
  {
    lines[..to] + [lines[from]] + lines[to..from] + lines[from + 1..]
  }

  /** `append(lines[:from], lines[from+1:]...)` then `append(lines, "")`, both in the same backing array. */
  method CloseGap(lines: array<string>, from: nat)
    requires from < lines.Length
    modifies lines
    ensures lines[..] == old(lines[..from] + lines[from + 1..] + [""])
  {
    var i := from;
    while i + 1 < lines.Length
      invariant from <= i < lines.Length
      invariant forall j | 0 <= j < from || i <= j < lines.Length :: lines[j] == old(lines[j])
      invariant forall j | from <= j < i :: lines[j] == old(lines[j + 1])
    {
      lines[i] := lines[i + 1];
      i := i + 1;
    }
    lines[i] := "";
  }

  /** `copy(lines[to+1:], lines[to:])`: the ranges overlap, so the copy runs from the end. */
  method OpenGap(lines: array<string>, to: nat)
    requires to < lines.Length
    modifies lines
    ensures lines[..] == old(lines[..to + 1] + lines[to..lines.Length - 1])
  {
    var i := lines.Length - 1;
    while i > to
      invariant to <= i < lines.Length
      invariant forall j | 0 <= j <= i :: lines[j] == old(lines[j])
      invariant forall j | i < j < lines.Length :: lines[j] == old(lines[j - 1])
    {
      lines[i] := lines[i - 1];
      i := i - 1;
    }
  }

  /** Moves one line in place: close the gap it leaves, reopen one at `to`, put it there. */
  method MoveLine(lines: array<string>, from: nat, to: nat)
    requires to <= from < lines.Length
    modifies lines
    ensures lines[..] == Moved(old(lines[..]), from, to)
  {
    hide Moved;
    var line := lines[from];
    ghost var was := lines[..];
    CloseGap(lines, from);
    ghost var closed := lines[..];
    OpenGap(lines, to);
    lines[to] := line;
    assert lines[..] == (closed[..to + 1] + closed[to..|closed| - 1])[to := line] == closed[..to] + [line] + closed[to..|closed| - 1];
    ClosedAndOpened(was, from, to);
  }

  lemma ClosedAndOpened(lines: seq<string>, from: nat, to: nat)
    requires to <= from < |lines|
    ensures var closed := lines[..from] + lines[from + 1..] + [""];
      closed[..to] + [lines[from]] + closed[to..|closed| - 1] == Moved(lines, from, to)
  {
    var closed := lines[..from] + lines[from + 1..] + [""];
    assert closed[to..|closed| - 1] == lines[to..from] + lines[from + 1..];
  }

  function Restore(text: string): Outcome {
    var lines := Lines(text);
    JudgeIsJustified(lines);
    match Judge(lines)
    case Refused(error) => error
    case Seen(Some(registry), Some(first)) =>
      RegistryIsTableData(lines, registry, first);
      Listed(Join(Moved(lines, registry, first)) + "\n")
    case Seen(_, _) => MissingRegistry
  }

  /** The registry line is itself table data, so the first table data is never behind it. */
  lemma RegistryIsTableData(lines: seq<string>, registry: nat, first: nat)
    requires OnlyRegistryAt(lines, registry) && FirstAt(lines, first)
    ensures first <= registry
  {
  }

  method BuildRestoreList(tableOfContents: string) returns (r: Outcome)
    ensures r == Restore(tableOfContents)
  {
    hide TableData, Split, Join, Moved;
    var text := Lines(tableOfContents);
    var lines := new string[|text|](i requires 0 <= i < |text| => text[i]);
    assert lines[..] == text;
    var registryIndex, firstTableDataIndex := -1, -1;
    var index := 0;
    while index < lines.Length
      invariant 0 <= index <= lines.Length && lines[..] == text
      invariant Judge(text[..index]) == Seen(Known(registryIndex), Known(firstTableDataIndex))
      invariant -1 <= registryIndex < index && -1 <= firstTableDataIndex < index
    {
      assert text[..index + 1][..index] == text[..index];
      var entry := RestoreListTableData(lines[index]);
      if entry.Some? {
        if firstTableDataIndex == -1 {
          firstTableDataIndex := index;
        }
        if entry.value == ("radishnexus", "activity_items") {
          RefusalStays(text, index + 1);
          return ActivityData;
        }
        if entry.value == ("radishnexus", "entity_types") {
          if registryIndex != -1 {
            RefusalStays(text, index + 1);
            return DuplicateRegistry;
          }
          registryIndex := index;
        }
      }
      index := index + 1;
    }
    assert text[..index] == text;
    if registryIndex == -1 || firstTableDataIndex == -1 {
      return MissingRegistry;
    }
    JudgeIsJustified(text);
    if registryIndex < firstTableDataIndex {
      assert false;
      firstTableDataIndex := firstTableDataIndex - 1;
    }
    MoveLine(lines, registryIndex, firstTableDataIndex);
    return Listed(Join(lines[..]) + "\n");
  }

  function Known(i: int): Option<nat> {
    if i < 0 then None else Some(i)
  }

  lemma {:induction false} RefusalStays(lines: seq<string>, i: nat)
    requires i <= |lines| && Judge(lines[..i]).Refused?
    ensures Judge(lines) == Judge(lines[..i])
    decreases |lines|
  {
    if i < |lines| {
      var front := lines[..|lines| - 1];
      assert front[..i] == lines[..i];
      RefusalStays(front, i);
    } else {
      assert lines[..i] == lines;
    }
  }

  // ---------- What the restore list promises ----------

  /** A list comes out exactly when there is one registry entry and no derived activity data. */
  lemma ListedExactly(text: string)
    ensures Restore(text).Listed? <==> NoActivity(Lines(text)) && exists k :: OnlyRegistryAt(Lines(text), k)
    ensures Restore(text).MissingRegistry? <==> NoActivity(Lines(text)) && forall i | 0 <= i < |Lines(text)| :: !IsRegistry(Lines(text)[i])
    ensures Restore(text).ActivityData? || Restore(text).DuplicateRegistry? ==> exists i :: RefusedAt(Lines(text), i, Restore(text))
  {
    hide TableData, Lines, Join, Moved, Judge;
    var lines := Lines(text);
    JudgeIsJustified(lines);
    match Judge(lines) {
      case Refused(error) =>
        var i :| RefusedAt(lines, i, error);
        if error.DuplicateRegistry? {
          var a :| OnlyRegistryAt(lines[..i], a);
          assert IsRegistry(lines[..i][a]) && IsRegistry(lines[a]) && IsRegistry(lines[i]);
        }
      case Seen(registry, first) =>
    }
  }

  ghost predicate RegistryFirst(lines: seq<string>) {
    exists f :: FirstAt(lines, f) && OnlyRegistryAt(lines, f)
  }

  /** All lines except the one at index k, in their order. */
  function Without(lines: seq<string>, k: nat): seq<string>
    requires k < |lines|
  {
    lines[..k] + lines[k + 1..]
  }

  /**
   The restored list has the same lines, the registry entry is the first table data, nothing else changed its
   place relative to the others, and no activity data is in it.
   */
  lemma ListMovesOnlyTheRegistry(text: string)
    requires Restore(text).Listed?
    ensures var before, after := Lines(text), Lines(Restore(text).text);
      && multiset(after) == multiset(before) && NoActivity(after) && RegistryFirst(after)
      && exists k, f :: OnlyRegistryAt(before, k) && FirstAt(before, f) && OnlyRegistryAt(after, f)
           && Without(after, f) == Without(before, k)
  {
    hide TableData, Lines, Join, Judge;
    var before := Lines(text);
    JudgeIsJustified(before);
    var k, f := Judge(before).registry.value, Judge(before).first.value;
    var after := Moved(before, k, f);
    MovedLines(before, k, f);
    LinesRoundTrip(after);
    MovedKeepsKinds(before, k, f);
    assert FirstAt(after, f) && OnlyRegistryAt(after, f);
  }

  lemma MovedLines(lines: seq<string>, from: nat, to: nat)
    requires to <= from < |lines|
    ensures var after := Moved(lines, from, to);
      && |after| == |lines| && multiset(after) == multiset(lines)
      && after[to] == lines[from] && Without(after, to) == Without(lines, from)
      && forall l | l in after :: l in lines
  {
    var after := Moved(lines, from, to);
    assert lines == lines[..to] + lines[to..from] + [lines[from]] + lines[from + 1..];
    assert after[..to] == lines[..to] && after[to + 1..] == lines[to..from] + lines[from + 1..];
    assert Without(lines, from) == lines[..to] + lines[to..from] + lines[from + 1..];
    forall l | l in after ensures l in lines {
      assert l in multiset(after);
    }
  }

  lemma MovedKeepsKinds(before: seq<string>, k: nat, f: nat)
    requires OnlyRegistryAt(before, k) && FirstAt(before, f) && f <= k && NoActivity(before)
    ensures var after := Moved(before, k, f);
      FirstAt(after, f) && OnlyRegistryAt(after, f) && NoActivity(after)
  {
    hide TableData;
    var after := Moved(before, k, f);
    assert forall i | 0 <= i < f :: after[i] == before[i];
    assert forall i | f < i <= k :: after[i] == before[i - 1];
    assert forall i | k < i < |after| :: after[i] == before[i];
    assert after[f] == before[k];
  }

  /** Building the list from an already built list changes nothing. */
  lemma RestoreIsIdempotent(text: string)
    requires Restore(text).Listed?
    ensures Restore(Restore(text).text) == Restore(text)
  {
    hide TableData, Lines, Join, Judge;
    ListMovesOnlyTheRegistry(text);
    var again := Restore(text).text;
    var lines := Lines(again);
    ListedExactly(again);
    JudgeIsJustified(lines);
    var f :| FirstAt(lines, f) && OnlyRegistryAt(lines, f);
    assert Judge(lines) == Seen(Some(f), Some(f)) by {
      OnlyOne(lines, Judge(lines), f);
    }
    assert Moved(lines, f, f) == lines;
    LinesOfList(text);
  }

  lemma OnlyOne(lines: seq<string>, v: Verdict, f: nat)
    requires Justified(lines, v) && v.Seen? && FirstAt(lines, f) && OnlyRegistryAt(lines, f)
    ensures v == Seen(Some(f), Some(f))
  {
    hide TableData;
  }

  lemma LinesOfList(text: string)
    requires Restore(text).Listed?
    ensures Join(Lines(Restore(text).text)) + "\n" == Restore(text).text
  {
    hide TableData, Judge, Join, Split;
    JudgeIsJustified(Lines(text));
    var list := Restore(text).text;
    assert TrimNewline(list) + "\n" == list;
    JoinSplit(TrimNewline(list));
  }
}
