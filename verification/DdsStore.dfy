/** The file in which yazi-dds keeps its sticky messages between runs (yazi-dds/src/state.rs): one
    message a line, filed on loading under what stands before its first comma. */
module DdsStore {

  function Find(s: string, c: char): (n: nat)
    ensures n <= |s| && (n < |s| ==> s[n] == c) && forall i :: 0 <= i < n ==> s[i] != c
  {
    if s == "" || s[0] == c then 0 else 1 + Find(s[1..], c)
  }

  /** A line with its line feed, or the unfinished last one. */
  function LineEnd(text: string): (n: nat)
    requires text != ""
    ensures 0 < n <= |text|
  {
    var n := Find(text, '\n'); if n < |text| then n + 1 else n
  }

  function File(m: map<string, string>, line: string): map<string, string> {
    var n := Find(line, ',');
    if line != "" && line[0] == '@' && n < |line| then m[line[..n] := line] else m
  }

  function Loaded(text: string, m: map<string, string>): map<string, string>
    decreases |text|
  {
    if text == "" then m else Loaded(text[LineEnd(text)..], File(m, text[..LineEnd(text)]))
  }

  method Load(text: string) returns (inner: map<string, string>)
    ensures inner == Loaded(text, map[])
  {
    inner := map[];
    var rest := text;
    while rest != ""
      invariant Loaded(text, map[]) == Loaded(rest, inner)
      decreases |rest|
    {
      var n := LineEnd(rest);
      var line := rest[..n];
      rest := rest[n..];
      var comma := Find(line, ',');
      if line != "" && line[0] == '@' && comma < |line| {
        inner := inner[line[..comma] := line];
      }
    }
  }

  /** A kept value: its kind, which starts with `@` and has no comma, a comma, the rest, a line feed. */
  ghost predicate Kept(kind: string, value: string) {
    && kind != "" && kind[0] == '@' && |kind| + 2 <= |value|
    && value[..|kind|] == kind && value[|kind|] == ',' && value[|value| - 1] == '\n'
    && (forall i :: 0 <= i < |kind| ==> kind[i] != ',')
    && (forall i :: 0 <= i < |value| - 1 ==> value[i] != '\n')
  }

  /** What setting a sticky message stores satisfies this. */
  lemma {:induction false} SetIsKept(kind: string, sender: string, body: string)
    requires kind != "" && kind[0] == '@' && (forall i :: 0 <= i < |kind| ==> kind[i] != ',' && kind[i] != '\n')
    requires forall i :: 0 <= i < |sender| ==> sender[i] != '\n'
    requires forall i :: 0 <= i < |body| ==> body[i] != '\n'
    ensures Kept(kind, kind + ",0," + sender + "," + body + "\n")
  {
    var head, tail := kind + ",0,", sender + "," + body + "\n";
    assert kind + ",0," + sender + "," + body + "\n" == head + tail;
  }

  function Drained(m: map<string, string>, kinds: seq<string>): string
    requires forall i :: 0 <= i < |kinds| ==> kinds[i] in m
  {
    if kinds == [] then "" else m[kinds[0]] + Drained(m, kinds[1..])
  }

  lemma {:induction false} FindAt(s: string, c: char, n: nat)
    requires n < |s| && s[n] == c && forall i :: 0 <= i < n ==> s[i] != c
    ensures Find(s, c) == n
  {}

  lemma {:induction false} ReadKept(kind: string, value: string, rest: string, m: map<string, string>)
    requires Kept(kind, value)
    ensures Loaded(value + rest, m) == Loaded(rest, m[kind := value])
  {
    var text := value + rest;
    FindAt(text, '\n', |value| - 1);
    assert text[..|value|] == value && text[|value|..] == rest;
    FindAt(value, ',', |kind|) by {
      assert forall i :: 0 <= i < |kind| ==> value[i] == value[..|kind|][i];
    }
  }

  lemma {:induction false} LoadedDrained(m: map<string, string>, kinds: seq<string>, acc: map<string, string>)
    requires forall i :: 0 <= i < |kinds| ==> kinds[i] in m && Kept(kinds[i], m[kinds[i]])
    ensures var r := Loaded(Drained(m, kinds), acc);
      && (forall x :: x in r <==> x in acc || x in kinds)
      && (forall x :: x in r && x in m ==> r[x] == if x in kinds then m[x] else acc[x])
      && (forall x :: x in r && x !in m ==> r[x] == acc[x])
    decreases |kinds|
  {
    if kinds != [] {
      var k := kinds[0];
      ReadKept(k, m[k], Drained(m, kinds[1..]), acc);
      LoadedDrained(m, kinds[1..], acc[k := m[k]]);
    }
  }

  /** Whatever order the kinds are written in, loading what was drained gives the kept messages back. */
  lemma {:induction false} DrainLoadRoundTrip(m: map<string, string>, kinds: seq<string>)
    requires forall k :: k in m ==> Kept(k, m[k])
    requires forall k :: k in kinds <==> k in m
    ensures (forall i :: 0 <= i < |kinds| ==> kinds[i] in m) && Loaded(Drained(m, kinds), map[]) == m
  {
    assert forall i :: 0 <= i < |kinds| ==> kinds[i] in kinds;
    LoadedDrained(m, kinds, map[]);
  }
}
