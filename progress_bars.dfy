/** `ProgressBar`: one labelled bar drawn on the shared coordinator, and
    the process-wide label width `LONGEST_PACKAGE_LEN` that `set_longest`
    maintains. The coordinator is one explicit object handed to every bar
    instead of the lazily created module singleton. */
module ProgressBars {
  import opened Text
  import opened ProgressFormat
  import opened PrintCoordination

  /** Holder of `LONGEST_PACKAGE_LEN`, the widest name seen so far. */
  class LabelWidth {
    var longest: nat

    constructor ()
      ensures longest == 0
    {
      longest := 0;
    }

    /** `set_longest(name)`: the width only ever grows, to cover `name`. */
    method SetLongest(name: string)
      modifies this
      ensures longest == Longer(old(longest), name)
      ensures old(longest) <= longest && |name| <= longest
    {
      if |name| > longest {
        longest := |name|;
      }
    }
  }

  /** The coordinator state after a new bar registered its name and printed
      its initial line. */
  function Opened(d: Display, name: string, caption: string): (r: Redraw)
    requires WellFormed(d)
    ensures WellFormed(r.next)
  {
    var reg := RegisterStep(d, name);
    PutKeepsWellFormed(d, name, "");
    var first := PrintStep(reg.next, name, InitialLine(caption));
    PutKeepsWellFormed(reg.next, name, InitialLine(caption));
    Redraw(first.next, reg.out + first.out)
  }

  /** The coordinator state after a report for `name` was drawn: when no
      bar was open for it yet, one is opened first; then the bar prints
      `line`. */
  function Reported(d: Display, name: string, known: bool, caption: string, line: string): Redraw
    requires WellFormed(d)
  {
    var start := if known then Redraw(d, []) else Opened(d, name, caption);
    var update := PrintStep(start.next, name, line);
    Redraw(update.next, start.out + update.out)
  }

  /** Opening a bar for a new name on a balanced coordinator leaves it
      balanced with the name last, showing the bar's initial line; the
      terminal gets one blank line and then a redraw that prints as many
      lines as it moves up. */
  lemma OpenedBalanced(d: Display, name: string, caption: string)
    requires WellFormed(d) && Balanced(d) && name !in d.text
    ensures var r := Opened(d, name, caption);
      && Balanced(r.next)
      && r.next.order == d.order + [name]
      && r.next.text == d.text[name := InitialLine(caption)]
      && r.out[0] == Line("")
      && Ups(r.out[1..]) == |r.next.order| == LineCount(r.out[1..])
  {
    OpenedState(d, name, caption);
    OpenedOutput(d, name, caption);
  }

  lemma OpenedState(d: Display, name: string, caption: string)
    requires WellFormed(d) && Balanced(d) && name !in d.text
    ensures var r := Opened(d, name, caption);
      && Balanced(r.next)
      && r.next.order == d.order + [name]
      && r.next.text == d.text[name := InitialLine(caption)]
  {
    var reg := RegisterStep(d, name);
    RegisterFresh(d, name);
    PutKeepsWellFormed(d, name, "");
    assert Balanced(reg.next) && reg.next.order == d.order + [name];
    PrintRedraw(reg.next, name, InitialLine(caption));
    assert reg.next.text[name := InitialLine(caption)] == d.text[name := InitialLine(caption)];
  }

  lemma OpenedOutput(d: Display, name: string, caption: string)
    requires WellFormed(d) && Balanced(d) && name !in d.text
    ensures var r := Opened(d, name, caption);
      && r.out[0] == Line("")
      && Ups(r.out[1..]) == |r.next.order| == LineCount(r.out[1..])
  {
    var reg := RegisterStep(d, name);
    RegisterFresh(d, name);
    PutKeepsWellFormed(d, name, "");
    var first := PrintStep(reg.next, name, InitialLine(caption));
    PrintRedraw(reg.next, name, InitialLine(caption));
    var r := Opened(d, name, caption);
    assert r == Redraw(first.next, [Line("")] + first.out);
    assert r.out[1..] == first.out;
  }

  class ProgressBar {
    const fileName: string
    const co: PrintCoordinator
    const widths: LabelWidth
    /** `_name_print`: the name padded to the common label width. */
    var caption: string

    /** `ProgressBar.__init__`: widen the label width, pad the name,
        register it and draw an empty bar. */
    constructor (fileName: string, co: PrintCoordinator, widths: LabelWidth)
      requires co.Valid()
      modifies co, widths
      ensures this.fileName == fileName && this.co == co && this.widths == widths
      ensures widths.longest == Longer(old(widths.longest), fileName)
      ensures caption == Padded(fileName, widths.longest)
      ensures |caption| == widths.longest + 1
      ensures co.Valid()
      ensures co.State() == Opened(old(co.State()), fileName, caption).next
      ensures co.output == old(co.output) + Opened(old(co.State()), fileName, caption).out
    {
      this.fileName := fileName;
      this.co := co;
      this.widths := widths;
      widths.SetLongest(fileName);
      var padded := Padded(fileName, widths.longest);
      PaddedLabel(fileName, widths.longest);
      caption := padded;
      new;
      Open(co, fileName, padded);
    }

    /** The coordinator calls of `ProgressBar.__init__`: register the name
        and print the empty bar under it. */
    static method Open(co: PrintCoordinator, name: string, caption: string)
      requires co.Valid()
      modifies co
      ensures co.Valid()
      ensures co.State() == Opened(old(co.State()), name, caption).next
      ensures co.output == old(co.output) + Opened(old(co.State()), name, caption).out
    {
      ghost var d := co.State();
      ghost var before := co.output;
      ghost var reg := RegisterStep(d, name);
      co.Register(name);
      ghost var first := PrintStep(reg.next, name, InitialLine(caption));
      co.Print(name, InitialLine(caption));
      Associative(before, reg.out, first.out);
      assert Opened(d, name, caption) == Redraw(first.next, reg.out + first.out);
    }

    /** `ProgressBar.update` at an integer percent: re-pad the name to the
        current label width and redraw with the new bar. */
    method Update(percent: int, part: int, total: int)
      requires co.Valid() && |fileName| <= widths.longest
      modifies this, co
      ensures caption == Padded(fileName, widths.longest)
      ensures |caption| == widths.longest + 1
      ensures co.Valid()
      ensures co.State() == PrintStep(old(co.State()), fileName, UpdateLine(caption, percent, part, total)).next
      ensures co.output == old(co.output) + PrintStep(old(co.State()), fileName, UpdateLine(caption, percent, part, total)).out
    {
      caption := Padded(fileName, widths.longest);
      PaddedLabel(fileName, widths.longest);
      var shownPart := HumanReadable(part);
      var shownTotal := HumanReadable(total);
      var line := "\t" + caption + "[" + BarCells(percent) + "] " + DecimalString(percent) + "% "
        + shownPart + "/" + shownTotal;
      assert line == UpdateLine(caption, percent, part, total);
      co.Print(fileName, line);
    }

    /** `ProgressBar.close`: unregister the name; returns whether the
        coordinator raised `KeyError` because the name was not stored. */
    method Close() returns (raised: bool)
      requires co.Valid()
      modifies co
      ensures co.Valid()
      ensures raised == UnregisterRaises(old(co.State()), fileName)
      ensures co.State() == UnregisterStep(old(co.State()), fileName).next
      ensures co.output == old(co.output) + UnregisterStep(old(co.State()), fileName).out
    {
      raised := co.Unregister(fileName);
    }
  }
}
