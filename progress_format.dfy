/** The text a progress bar shows: the byte counts scaled to a unit
    (`human_readable`), the running label width (`set_longest`), the padded
    label and the fixed-width bar drawn for an integer percent. */
module ProgressFormat {
  import opened Text
  import opened Arithmetic

  /** The units `human_readable` tries, in order, before falling back to petabytes. */
  const Units: seq<string> := ["", "K", "M", "G", "T"]

  /** Largest value shown in a unit before moving on to the next one (exclusive). */
  const ShowLimit: int := 10240

  /** Number of cells between the brackets of a bar. */
  const Width: int := 50

  /** Percent points per bar cell: 100 divided by the bar width. */
  const CharPercent: int := 100 / Width

  function Pow1024(k: nat): (r: nat)
    ensures r >= 1
  {
    if k == 0 then 1 else 1024 * Pow1024(k - 1)
  }

  /** The number divided down to unit `k` is small enough to be shown in it. */
  predicate Fits(n: int, k: nat) {
    n / Pow1024(k) < ShowLimit
  }

  /** The first unit index at or after `k` (and at most 5) that `n` fits in. */
  function UnitIndexFrom(n: int, k: nat): (r: nat)
    requires k <= 5
    ensures k <= r <= 5
    ensures r < 5 ==> Fits(n, r)
    ensures forall j :: k <= j < r ==> !Fits(n, j)
    decreases 5 - k
  {
    if k == 5 || Fits(n, k) then k else UnitIndexFrom(n, k + 1)
  }

  /** The unit `human_readable` picks: the first of B, K, M, G, T the value
      fits in, or 5 (PB) when it fits in none of them. */
  function UnitIndex(n: int): (k: nat)
    ensures k <= 5
    ensures k < 5 ==> Fits(n, k)
    ensures forall j :: 0 <= j < k ==> !Fits(n, j)
  {
    UnitIndexFrom(n, 0)
  }

  function UnitSuffix(k: nat): string
    requires k <= 5
  {
    if k < 5 then Units[k] + "B" else "PB"
  }

  /** What `human_readable(n)` returns, stated through the unit it picks. */
  function HumanReadableText(n: int): string {
    var k := UnitIndex(n);
    DecimalString(n / Pow1024(k)) + UnitSuffix(k)
  }

  lemma Pow1024Step(n: int, k: nat)
    ensures n / Pow1024(k) / 1024 == n / Pow1024(k + 1)
  {
    DivDiv(n, Pow1024(k), 1024);
    assert Pow1024(k + 1) == Pow1024(k) * 1024;
  }

  /** `human_readable` as the source writes it: divide by 1024 once per
      unit tried until the number drops below 10240. */
  method HumanReadable(n: int) returns (s: string)
    ensures s == HumanReadableText(n)
  {
    var number := n;
    var i := 0;
    while i < |Units|
      invariant 0 <= i <= 5
      invariant number == n / Pow1024(i)
      invariant forall j :: 0 <= j < i ==> !Fits(n, j)
    {
      if number < ShowLimit {
        assert Fits(n, i);
        assert UnitIndex(n) == i;
        return DecimalString(number) + Units[i] + "B";
      }
      Pow1024Step(n, i);
      number := number / 1024;
      i := i + 1;
    }
    assert UnitIndex(n) == 5;
    return DecimalString(number) + "PB";
  }

  /** The number shown for a non-negative count: it is below 10240 unless
      the unit is PB, and once the count has been scaled at least once it is
      at least 10 (the previous unit would have been too large). */
  lemma HumanReadableShown(n: int)
    requires n >= 0
    ensures var k := UnitIndex(n);
      && 0 <= n / Pow1024(k)
      && (k < 5 ==> n / Pow1024(k) < ShowLimit)
      && (k > 0 ==> n / Pow1024(k) >= 10)
      && HumanReadableText(n) == DecimalString(n / Pow1024(k)) + UnitSuffix(k)
  {
    var k := UnitIndex(n);
    if k > 0 {
      assert !Fits(n, k - 1);
      Pow1024Step(n, k - 1);
    }
  }

  /** Counts below 10240 are printed in bytes, unscaled. */
  lemma HumanReadableBytes(n: int)
    requires n < ShowLimit
    ensures HumanReadableText(n) == DecimalString(n) + "B"
  {
    assert Pow1024(0) == 1 && n / 1 == n;
    assert Fits(n, 0);
    assert UnitIndex(n) == 0;
    assert UnitSuffix(0) == "B";
  }

  /** The new value of `LONGEST_PACKAGE_LEN` after `set_longest(name)`: the
      least width that covers both the old value and the name. */
  function Longer(longest: nat, name: string): (r: nat)
    ensures r >= longest && r >= |name|
    ensures r == longest || r == |name|
  {
    if |name| > longest then |name| else longest
  }

  /** The label `ProgressBar` prints (scylla/progress.py:60, 84): the name
      followed by one more space than the width exceeds its length. */
  function Padded(name: string, longest: int): string {
    name + Repeat(' ', longest - |name| + 1)
  }

  /** Once `set_longest` has covered the name, the padded label is the name
      followed by spaces up to exactly one more than the longest width. */
  lemma PaddedLabel(name: string, longest: int)
    requires longest >= |name|
    ensures |Padded(name, longest)| == longest + 1
    ensures Padded(name, longest)[..|name|] == name
    ensures forall i :: |name| <= i < longest + 1 ==> Padded(name, longest)[i] == ' '
  {
    var p := Padded(name, longest);
    assert p[..|name|] == name;
    forall i | |name| <= i < longest + 1
      ensures p[i] == ' '
    {
      assert p[i] == Repeat(' ', longest - |name| + 1)[i - |name|];
    }
  }

  /** The cells between the brackets for an integer percent `p`. */
  function BarCells(p: int): string {
    var filled := p / CharPercent;
    var beak := if p < 100 then ">" else "";
    Repeat('=', filled) + beak + Repeat(' ', Width - filled - |beak|)
  }

  /** For a percent in 0..100 the bar has exactly 50 cells: `p // 2` `=`
      signs, a `>` right after them exactly when `p < 100`, then spaces. */
  lemma BarLayout(p: int)
    requires 0 <= p <= 100
    ensures |BarCells(p)| == Width
    ensures forall i :: 0 <= i < Width ==>
      BarCells(p)[i] == if i < p / CharPercent then '='
                        else if i == p / CharPercent && p < 100 then '>'
                        else ' '
  {
    var filled := p / CharPercent;
    var beak := if p < 100 then ">" else "";
    var eq := Repeat('=', filled);
    var sp := Repeat(' ', Width - filled - |beak|);
    var b := BarCells(p);
    assert b == eq + beak + sp;
    assert |eq| == filled;
    forall i | 0 <= i < Width
      ensures b[i] == if i < filled then '=' else if i == filled && p < 100 then '>' else ' '
    {
      if i < filled {
        assert b[i] == eq[i];
      } else if i < filled + |beak| {
        assert b[i] == beak[i - filled];
      } else {
        assert b[i] == sp[i - filled - |beak|];
      }
    }
  }

  /** The line a bar prints at start: its label and an empty bar. */
  function InitialLine(caption: string): string {
    "\t" + caption + "[" + Repeat(' ', Width) + "]"
  }

  /** The line `ProgressBar.update` prints for percent `p` of `total`. */
  function UpdateLine(caption: string, p: int, part: int, total: int): string {
    "\t" + caption + "[" + BarCells(p) + "] " + DecimalString(p) + "% "
      + HumanReadableText(part) + "/" + HumanReadableText(total)
  }

  /** The initial line holds exactly `Width` blank cells between its brackets. */
  lemma InitialLineBlank(caption: string)
    ensures var s := InitialLine(caption);
      var lb := |caption| + 1;
      && |s| == lb + Width + 2
      && s[lb] == '[' && s[lb + Width + 1] == ']'
      && forall i :: lb < i <= lb + Width ==> s[i] == ' '
  {
    var s := InitialLine(caption);
    var lb := |caption| + 1;
    forall i | lb < i <= lb + Width
      ensures s[i] == ' '
    {
      assert s[i] == Repeat(' ', Width)[i - lb - 1];
    }
  }
}
