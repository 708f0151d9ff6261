/** `PrintCoordinator`: the shared terminal region in which every progress
    bar owns one line. The terminal is modelled as the sequence of tokens
    written to it: a cursor-up escape (`\033[A`) or one printed line.

    The coordinator's state is an insertion-ordered dictionary from name to
    line text together with a separate counter `_len`. Each operation is
    first defined as a step function on a `Display` value; the class
    `PrintCoordinator` updates its fields in place and is proved to follow
    the step functions, and the lemmas say what the steps guarantee. */
module PrintCoordination {

  datatype Token = CursorUp | Line(text: string)

  /** The coordinator's state: `order` is the dictionary's key order,
      `text` its contents, `len` the counter `_len`. */
  datatype Display = Display(order: seq<string>, text: map<string, string>, len: int)

  /** A step's result: the new state and what it wrote to the terminal. */
  datatype Redraw = Redraw(next: Display, out: seq<Token>)

  predicate Distinct(s: seq<string>) {
    forall i, j :: 0 <= i < j < |s| ==> s[i] != s[j]
  }

  /** The shape of a Python dictionary: its keys, once each, in insertion order. */
  ghost predicate WellFormed(d: Display) {
    Distinct(d.order) && forall x :: x in d.text <==> x in d.order
  }

  /** The counter agrees with the number of stored lines. */
  predicate Balanced(d: Display) {
    d.len == |d.order|
  }

  /** `"\033[A" * n`: nothing when `n` is zero or negative. */
  function CursorUps(n: int): (r: seq<Token>)
    ensures |r| == if n > 0 then n else 0
    ensures forall i :: 0 <= i < |r| ==> r[i] == CursorUp
  {
    if n <= 0 then [] else [CursorUp] + CursorUps(n - 1)
  }

  /** The redraw loop of `print` and `unregister` (scylla/progress.py:36-37,
      44-45): one printed line per stored text, in key order. */
  function Lines(order: seq<string>, text: map<string, string>): seq<Token>
    requires forall x :: x in order ==> x in text
  {
    seq(|order|, i requires 0 <= i < |order| => Line(text[order[i]]))
  }

  /** Key order after storing a text under `name`: an existing key keeps
      its place, a new key goes last. */
  function Put(order: seq<string>, name: string): seq<string> {
    if name in order then order else order + [name]
  }

  /** Key order after removing `name` from the dictionary. */
  function Without(order: seq<string>, name: string): (r: seq<string>)
    ensures forall x :: x in r <==> x in order && x != name
  {
    if order == [] then []
    else if order[0] == name then Without(order[1..], name)
    else [order[0]] + Without(order[1..], name)
  }

  /** `register(name)`: count one more line, store an empty text, print one
      blank line. */
  function RegisterStep(d: Display, name: string): Redraw {
    Redraw(Display(Put(d.order, name), d.text[name := ""], d.len + 1), [Line("")])
  }

  /** `print(name, line)`: store the text, move up `_len` lines, reprint
      every stored line in order. */
  function PrintStep(d: Display, name: string, line: string): Redraw
    requires WellFormed(d)
  {
    var next := Display(Put(d.order, name), d.text[name := line], d.len);
    Redraw(next, CursorUps(d.len) + Lines(next.order, next.text))
  }

  /** `unregister(name)` raises `KeyError` for a name that is not stored. */
  predicate UnregisterRaises(d: Display, name: string) {
    name !in d.text
  }

  /** `unregister(name)`: move up `_len` lines, print the removed line's
      text, count one line less, drop the entry and reprint the rest. For
      an unknown name the cursor-ups have already been written when the
      lookup raises, and nothing else happens. */
  function UnregisterStep(d: Display, name: string): Redraw
    requires WellFormed(d)
  {
    if UnregisterRaises(d, name) then Redraw(d, CursorUps(d.len))
    else
      var next := Display(Without(d.order, name), d.text - {name}, d.len - 1);
      Redraw(next, CursorUps(d.len) + [Line(d.text[name])] + Lines(next.order, next.text))
  }

  /** Writing `b` and then `c` after `a` is writing `b + c` after `a`. */
  lemma Associative(a: seq<Token>, b: seq<Token>, c: seq<Token>)
    ensures (a + b) + c == a + (b + c)
  {
  }

  function Ups(out: seq<Token>): nat {
    if out == [] then 0 else (if out[0] == CursorUp then 1 else 0) + Ups(out[1..])
  }

  function LineCount(out: seq<Token>): nat {
    if out == [] then 0 else (if out[0].Line? then 1 else 0) + LineCount(out[1..])
  }

  lemma {:induction false} CountsAppend(a: seq<Token>, b: seq<Token>)
    ensures Ups(a + b) == Ups(a) + Ups(b)
    ensures LineCount(a + b) == LineCount(a) + LineCount(b)
  {
    if a != [] {
      assert (a + b)[1..] == a[1..] + b;
      CountsAppend(a[1..], b);
    } else {
      assert a + b == b;
    }
  }

  /** A run of `n` cursor-ups holds `n` ups and no line. */
  lemma {:induction false} CursorUpsCount(n: int)
    ensures Ups(CursorUps(n)) == (if n > 0 then n else 0)
    ensures LineCount(CursorUps(n)) == 0
  {
    if n > 0 {
      CursorUpsCount(n - 1);
      assert CursorUps(n)[1..] == CursorUps(n - 1);
    }
  }

  /** Reprinting the stored lines writes one line per key and no cursor-up. */
  lemma {:induction false} LinesCount(order: seq<string>, text: map<string, string>)
    requires forall x :: x in order ==> x in text
    ensures Ups(Lines(order, text)) == 0
    ensures LineCount(Lines(order, text)) == |order|
  {
    if order != [] {
      LinesCount(order[1..], text);
      assert Lines(order, text)[1..] == Lines(order[1..], text);
    }
  }

  /** Removing a present key from a duplicate-free order takes out exactly
      its one position and keeps the others in order. */
  lemma {:induction false} WithoutRemovesOne(order: seq<string>, name: string, i: nat)
    requires Distinct(order) && i < |order| && order[i] == name
    ensures Without(order, name) == order[..i] + order[i + 1..]
  {
    if i == 0 {
      WithoutAbsent(order[1..], name);
    } else {
      WithoutRemovesOne(order[1..], name, i - 1);
      assert order[1..][..i - 1] == order[1..i];
      assert order[1..][i..] == order[i + 1..];
      assert order[..i] == [order[0]] + order[1..i];
    }
  }

  lemma {:induction false} WithoutAbsent(order: seq<string>, name: string)
    requires name !in order
    ensures Without(order, name) == order
  {
    if order != [] {
      WithoutAbsent(order[1..], name);
    }
  }

  lemma DistinctRemove(s: seq<string>, i: nat)
    requires Distinct(s) && i < |s|
    ensures Distinct(s[..i] + s[i + 1..])
    ensures forall x :: x in s[..i] + s[i + 1..] <==> x in s && x != s[i]
  {
    var t := s[..i] + s[i + 1..];
    forall a, b | 0 <= a < b < |t|
      ensures t[a] != t[b]
    {
      var a' := if a < i then a else a + 1;
      var b' := if b < i then b else b + 1;
      assert t[a] == s[a'] && t[b] == s[b'];
    }
    forall x
      ensures x in t <==> x in s && x != s[i]
    {
      if x in t {
        var k :| 0 <= k < |t| && t[k] == x;
        assert s[if k < i then k else k + 1] == x;
      }
      if x in s && x != s[i] {
        var k :| 0 <= k < |s| && s[k] == x;
        assert k != i;
        assert t[if k < i then k else k - 1] == x;
      }
    }
  }

  lemma IndexOf(s: seq<string>, x: string) returns (i: nat)
    requires x in s
    ensures i < |s| && s[i] == x
  {
    i :| 0 <= i < |s| && s[i] == x;
  }

  /** All three operations keep the dictionary's shape. */
  lemma StepsKeepWellFormed(d: Display, name: string, line: string)
    requires WellFormed(d)
    ensures WellFormed(RegisterStep(d, name).next)
    ensures WellFormed(PrintStep(d, name, line).next)
    ensures WellFormed(UnregisterStep(d, name).next)
  {
    PutKeepsWellFormed(d, name, line);
    if name in d.text {
      var i := IndexOf(d.order, name);
      WithoutRemovesOne(d.order, name, i);
      DistinctRemove(d.order, i);
    }
  }

  /** The two operations that store a text keep the dictionary's shape. */
  lemma PutKeepsWellFormed(d: Display, name: string, line: string)
    requires WellFormed(d)
    ensures WellFormed(RegisterStep(d, name).next)
    ensures WellFormed(PrintStep(d, name, line).next)
  {
    if name !in d.text {
      assert Distinct(d.order + [name]);
    }
  }

  /** `register` keeps `_len == len(_printers)` exactly when the name is new;
      it then appends the name last with an empty text, keeps every other
      entry, and prints one blank line. Re-registering a name grows the
      counter but not the dictionary. */
  lemma RegisterFresh(d: Display, name: string)
    requires WellFormed(d) && Balanced(d)
    ensures var r := RegisterStep(d, name);
      && (Balanced(r.next) <==> name !in d.text)
      && (name !in d.text ==> r.next.order == d.order + [name])
      && r.next.text[name] == ""
      && (forall x :: x in d.text && x != name ==> x in r.next.text && r.next.text[x] == d.text[x])
      && r.out == [Line("")] && LineCount(r.out) == 1 && Ups(r.out) == 0
  {
    var r := RegisterStep(d, name);
    assert r.out[1..] == [];
    if name in d.text {
      assert Put(d.order, name) == d.order;
    }
  }

  /** `print` on a stored name keeps the balance, changes only that entry's
      text, keeps the key order, and writes exactly `_len` cursor-ups
      followed by one line per entry in order. Printing a name that is not
      stored adds it without counting it, which breaks the balance. */
  lemma PrintRedraw(d: Display, name: string, line: string)
    requires WellFormed(d) && Balanced(d)
    ensures var r := PrintStep(d, name, line);
      && (Balanced(r.next) <==> name in d.text)
      && (name in d.text ==>
            && r.next.order == d.order
            && r.next.text == d.text[name := line]
            && r.out == CursorUps(|d.order|) + Lines(d.order, d.text[name := line])
            && Ups(r.out) == |d.order| == LineCount(r.out))
  {
    var r := PrintStep(d, name, line);
    if name in d.text {
      CountsAppend(CursorUps(d.len), Lines(r.next.order, r.next.text));
      CursorUpsCount(d.len);
      LinesCount(r.next.order, r.next.text);
    }
  }

  /** `unregister` on a stored name writes the old `_len` cursor-ups, then
      the removed entry's last text, then the remaining entries in order:
      as many lines as it moved up. Afterwards the name is gone, the
      counter is one less, the balance holds, and the other entries keep
      their order and text. */
  lemma UnregisterRedraw(d: Display, name: string)
    requires WellFormed(d) && Balanced(d) && name in d.text
    ensures var r := UnregisterStep(d, name);
      && Balanced(r.next)
      && name !in r.next.text
      && r.next.len == d.len - 1
      && (exists i :: 0 <= i < |d.order| && d.order[i] == name
                      && r.next.order == d.order[..i] + d.order[i + 1..])
      && (forall x :: x in r.next.text ==> x in d.text && r.next.text[x] == d.text[x])
      && r.out[..|d.order|] == CursorUps(|d.order|)
      && r.out[|d.order|] == Line(d.text[name])
      && r.out[|d.order| + 1..] == Lines(r.next.order, r.next.text)
      && Ups(r.out) == |d.order| == LineCount(r.out)
  {
    var r := UnregisterStep(d, name);
    assert !UnregisterRaises(d, name);
    var i := IndexOf(d.order, name);
    WithoutRemovesOne(d.order, name, i);
    DistinctRemove(d.order, i);
    assert r.next.order == d.order[..i] + d.order[i + 1..];
    assert |r.next.order| == |d.order| - 1;
    var ups, rest := CursorUps(d.len), Lines(r.next.order, r.next.text);
    assert r.out == ups + [Line(d.text[name])] + rest;
    OutputCounts(ups, d.text[name], rest);
    CursorUpsCount(d.len);
    LinesCount(r.next.order, r.next.text);
  }

  /** Counts of an output made of a run, one line and a rest. */
  lemma OutputCounts(ups: seq<Token>, line: string, rest: seq<Token>)
    ensures Ups(ups + [Line(line)] + rest) == Ups(ups) + Ups(rest)
    ensures LineCount(ups + [Line(line)] + rest) == LineCount(ups) + 1 + LineCount(rest)
  {
    CountsAppend(ups + [Line(line)], rest);
    CountsAppend(ups, [Line(line)]);
    assert LineCount([Line(line)]) == 1;
    assert Ups([Line(line)]) == 0;
  }

  /** `print` on a name that is not stored, from a balanced state: the
      name is stored without being counted, so the redraw prints one line
      more than it moved up. */
  lemma PrintAbsentOverprints(d: Display, name: string, line: string)
    requires WellFormed(d) && Balanced(d) && name !in d.text
    ensures var r := PrintStep(d, name, line);
      && !Balanced(r.next)
      && r.next.order == d.order + [name]
      && LineCount(r.out) == Ups(r.out) + 1
  {
    var r := PrintStep(d, name, line);
    CountsAppend(CursorUps(d.len), Lines(r.next.order, r.next.text));
    CursorUpsCount(d.len);
    LinesCount(r.next.order, r.next.text);
  }

  /** `unregister` on a name that is not stored: the state is unchanged,
      so the balance still holds, but the cursor has moved up `_len` lines
      and no line is printed to bring it back. */
  lemma UnregisterAbsentDrifts(d: Display, name: string)
    requires WellFormed(d) && Balanced(d) && name !in d.text
    ensures var r := UnregisterStep(d, name);
      && r.next == d
      && Balanced(r.next)
      && Ups(r.out) == |d.order|
      && LineCount(r.out) == 0
  {
    CursorUpsCount(d.len);
  }

  /** One call on the coordinator, as some progress bar makes it. */
  datatype Op = Register(name: string) | Print(name: string, line: string) | Unregister(name: string)

  /** The text a call stores, or the empty text for the calls that store none. */
  function LineOf(op: Op): string {
    if op.Print? then op.line else ""
  }

  function Apply(d: Display, op: Op): Redraw
    requires WellFormed(d)
  {
    match op
    case Register(name) => RegisterStep(d, name)
    case Print(name, line) => PrintStep(d, name, line)
    case Unregister(name) => UnregisterStep(d, name)
  }

  /** The preconditions the callers keep: register only new names, print
      and unregister only stored ones. */
  predicate Allowed(d: Display, op: Op) {
    match op
    case Register(name) => name !in d.text
    case Print(name, _) => name in d.text
    case Unregister(name) => name in d.text
  }

  /** The state reached and everything written after a series of calls. */
  function Run(d: Display, ops: seq<Op>): Redraw
    requires WellFormed(d)
    decreases |ops|
  {
    if ops == [] then Redraw(d, [])
    else
      var first := Apply(d, ops[0]);
      StepsKeepWellFormed(d, ops[0].name, LineOf(ops[0]));
      var rest := Run(first.next, ops[1..]);
      Redraw(rest.next, first.out + rest.out)
  }

  /** Every call in the series meets its precondition in the state it meets. */
  predicate AllAllowed(d: Display, ops: seq<Op>)
    requires WellFormed(d)
    decreases |ops|
  {
    ops == [] ||
      (StepsKeepWellFormed(d, ops[0].name, LineOf(ops[0]));
       Allowed(d, ops[0]) && AllAllowed(Apply(d, ops[0]).next, ops[1..]))
  }

  function Registrations(ops: seq<Op>): nat {
    if ops == [] then 0 else (if ops[0].Register? then 1 else 0) + Registrations(ops[1..])
  }

  function Unregistrations(ops: seq<Op>): nat {
    if ops == [] then 0 else (if ops[0].Unregister? then 1 else 0) + Unregistrations(ops[1..])
  }

  /** No drift, over any series of allowed calls from a balanced state: the
      balance holds at the end, every redraw has printed exactly as many
      lines as it moved up (only the blank lines of `register` are extra),
      and the region holds one line per registration not yet undone. */
  lemma {:induction false} RunStaysBalanced(d: Display, ops: seq<Op>)
    requires WellFormed(d) && Balanced(d) && AllAllowed(d, ops)
    ensures Balanced(Run(d, ops).next)
    ensures LineCount(Run(d, ops).out) == Ups(Run(d, ops).out) + Registrations(ops)
    ensures |Run(d, ops).next.order| + Unregistrations(ops) == |d.order| + Registrations(ops)
    decreases |ops|
  {
    if ops != [] {
      var op := ops[0];
      StepsKeepWellFormed(d, op.name, LineOf(op));
      var first := Apply(d, op);
      match op {
        case Register(name) => RegisterFresh(d, name);
        case Print(name, line) => PrintRedraw(d, name, line);
        case Unregister(name) => UnregisterRedraw(d, name);
      }
      RunStaysBalanced(first.next, ops[1..]);
      CountsAppend(first.out, Run(first.next, ops[1..]).out);
    }
  }

  /** The loop that reprints the stored lines: one `print` per entry, in
      the dictionary's order. */
  method PrintLines(order: seq<string>, text: map<string, string>) returns (out: seq<Token>)
    requires forall x :: x in order ==> x in text
    ensures out == Lines(order, text)
  {
    out := [];
    var i := 0;
    while i < |order|
      invariant 0 <= i <= |order|
      invariant out == Lines(order[..i], text)
    {
      assert Lines(order[..i + 1], text) == Lines(order[..i], text) + [Line(text[order[i]])];
      out := out + [Line(text[order[i]])];
      i := i + 1;
    }
    assert order[..i] == order;
  }

  /** The coordinator object the progress bars share. `output` is
      everything written to the terminal so far. */
  class PrintCoordinator {
    var order: seq<string>
    var text: map<string, string>
    var len: int
    var output: seq<Token>

    function State(): Display
      reads this
    {
      Display(order, text, len)
    }

    ghost predicate Valid()
      reads this
    {
      WellFormed(State())
    }

    constructor ()
      ensures Valid() && State() == Display([], map[], 0) && output == []
    {
      order, text, len, output := [], map[], 0, [];
    }

    method Register(name: string)
      requires Valid()
      modifies this
      ensures Valid()
      ensures State() == RegisterStep(old(State()), name).next
      ensures output == old(output) + RegisterStep(old(State()), name).out
    {
      PutKeepsWellFormed(State(), name, "");
      len := len + 1;
      text := text[name := ""];
      order := Put(order, name);
      output := output + [Line("")];
    }

    method Print(name: string, line: string)
      requires Valid()
      modifies this
      ensures Valid()
      ensures State() == PrintStep(old(State()), name, line).next
      ensures output == old(output) + PrintStep(old(State()), name, line).out
    {
      PutKeepsWellFormed(State(), name, line);
      text := text[name := line];
      order := Put(order, name);
      var lines := PrintLines(order, text);
      output := output + (CursorUps(len) + lines);
    }

    /** Returns whether the lookup raised `KeyError`. */
    method Unregister(name: string) returns (raised: bool)
      requires Valid()
      modifies this
      ensures Valid()
      ensures raised == UnregisterRaises(old(State()), name)
      ensures State() == UnregisterStep(old(State()), name).next
      ensures output == old(output) + UnregisterStep(old(State()), name).out
    {
      ghost var r := UnregisterStep(State(), name);
      StepsKeepWellFormed(State(), name, "");
      if name !in text {
        output := output + CursorUps(len);
        return true;
      }
      var removed := text[name];
      var ups := len;
      len := len - 1;
      text := text - {name};
      order := Without(order, name);
      var lines := PrintLines(order, text);
      assert State() == r.next;
      output := output + (CursorUps(ups) + [Line(removed)] + lines);
      raised := false;
    }
  }
}
