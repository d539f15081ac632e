/**
 * Generic facts about sequences that the renderers rely on: picking some
 * items out of a list in order, flattening a list of blocks, and the
 * `[line] if cond else []` idiom of optional lines.
 */
module Seqs {
  import opened Wrappers

  /** The items `f` picks out of `xs`, in order. */
  function Select<T, U>(xs: seq<T>, f: T -> Option<U>): (r: seq<U>)
    ensures |r| <= |xs|
  {
    if |xs| == 0 then [] else Pick(f, xs[0]) + Select(xs[1..], f)
  }

  /** What `f` picks from one item: its value, or nothing. */
  function Pick<T, U>(f: T -> Option<U>, x: T): (r: seq<U>)
    ensures |r| <= 1
    ensures |r| == 1 <==> f(x).Some?
  {
    if f(x).Some? then [f(x).value] else []
  }

  /** Picking from a concatenation picks from each part in turn. */
  lemma {:induction false} SelectAppend<T, U>(xs: seq<T>, ys: seq<T>, f: T -> Option<U>)
    ensures Select(xs + ys, f) == Select(xs, f) + Select(ys, f)
  {
    if |xs| == 0 {
      assert xs + ys == ys;
    } else {
      assert (xs + ys)[0] == xs[0] && (xs + ys)[1..] == xs[1..] + ys;
      SelectAppend(xs[1..], ys, f);
    }
  }

  /** Nothing is picked from items `f` does not select. */
  lemma {:induction false} SelectNone<T, U>(xs: seq<T>, f: T -> Option<U>)
    requires forall i :: 0 <= i < |xs| ==> f(xs[i]).None?
    ensures Select(xs, f) == []
  {
    if |xs| > 0 {
      assert forall i :: 0 <= i < |xs| - 1 ==> xs[1..][i] == xs[i + 1];
      SelectNone(xs[1..], f);
    }
  }

  /** Picking from two leading items followed by items with nothing to pick. */
  lemma SelectTwo<T, U>(a: T, b: T, rest: seq<T>, f: T -> Option<U>)
    requires forall i :: 0 <= i < |rest| ==> f(rest[i]).None?
    ensures Select([a, b] + rest, f) == Pick(f, a) + Pick(f, b)
  {
    SelectNone(rest, f);
    SelectPair(a, b, f);
    SelectAppend([a, b], rest, f);
  }

  /** Picking from two items picks from each in turn. */
  lemma SelectPair<T, U>(a: T, b: T, f: T -> Option<U>)
    ensures Select([a, b], f) == Pick(f, a) + Pick(f, b)
  {
    assert [a, b][1..] == [b] && [b][1..] == [];
    assert Select([b], f) == Pick(f, b);
  }

  /** Picking from items framed by items with nothing to pick picks from the middle alone. */
  lemma SelectFramed<T, U>(front: seq<T>, mid: seq<T>, back: seq<T>, f: T -> Option<U>)
    requires forall i :: 0 <= i < |front| ==> f(front[i]).None?
    requires forall i :: 0 <= i < |back| ==> f(back[i]).None?
    ensures Select(front + mid + back, f) == Select(mid, f)
  {
    SelectNone(front, f);
    SelectNone(back, f);
    SelectAppend(front + mid, back, f);
    SelectAppend(front, mid, f);
  }

  /** The blocks, one after another. */
  function Concat<T>(blocks: seq<seq<T>>): seq<T> {
    if |blocks| == 0 then [] else Concat(blocks[..|blocks| - 1]) + blocks[|blocks| - 1]
  }

  /** Flattening one more block appends it. */
  lemma ConcatSnoc<T>(blocks: seq<seq<T>>, i: nat)
    requires i < |blocks|
    ensures Concat(blocks[..i + 1]) == Concat(blocks[..i]) + blocks[i]
  {
    assert blocks[..i + 1][..i] == blocks[..i];
  }

  /** Appending block `i` to a prefix and the blocks before `i` gives the prefix and the blocks up to `i`. */
  lemma ConcatStep<T>(prefix: seq<T>, blocks: seq<seq<T>>, i: nat, lines: seq<T>, block: seq<T>)
    requires i < |blocks| && lines == prefix + Concat(blocks[..i]) && block == blocks[i]
    ensures lines + block == prefix + Concat(blocks[..i + 1])
  {
    ConcatSnoc(blocks, i);
  }

  /** When `f` picks exactly `vals[k]` from block `k`, it picks `vals` from the flattened blocks. */
  lemma {:induction false} SelectConcat<T, U>(blocks: seq<seq<T>>, f: T -> Option<U>, vals: seq<U>)
    requires |vals| == |blocks|
    requires forall k :: 0 <= k < |blocks| ==> Select(blocks[k], f) == [vals[k]]
    ensures Select(Concat(blocks), f) == vals
  {
    if |blocks| > 0 {
      var n := |blocks| - 1;
      forall k | 0 <= k < n
        ensures Select(blocks[..n][k], f) == [vals[..n][k]]
      {
        assert blocks[..n][k] == blocks[k] && vals[..n][k] == vals[k];
      }
      SelectConcat(blocks[..n], f, vals[..n]);
      ConcatSnoc(blocks, n);
      assert blocks[..n + 1] == blocks;
      SelectAppend(Concat(blocks[..n]), blocks[n], f);
      assert vals == vals[..n] + [vals[n]];
    }
  }

  /** When `f` picks one item from every block, it picks one per block from the flattened blocks. */
  lemma SelectConcatCount<T, U>(blocks: seq<seq<T>>, f: T -> Option<U>)
    requires forall k :: 0 <= k < |blocks| ==> |Select(blocks[k], f)| == 1
    ensures |Select(Concat(blocks), f)| == |blocks|
  {
    var vals := seq(|blocks|, k requires 0 <= k < |blocks| => Select(blocks[k], f)[0]);
    forall k | 0 <= k < |blocks|
      ensures Select(blocks[k], f) == [vals[k]]
    {
      assert Select(blocks[k], f) == [Select(blocks[k], f)[0]];
    }
    SelectConcat(blocks, f, vals);
  }

  /** `[line] if cond else []`: a line emitted only under a condition. */
  function Opt<L>(cond: bool, line: L): seq<L> {
    if cond then [line] else []
  }

  /** `if cond: lines.append(line)`. */
  method AppendIf<L>(lines: seq<L>, cond: bool, line: L) returns (r: seq<L>)
    ensures r == lines + Opt(cond, line)
  {
    r := lines;
    if cond {
      r := r + [line];
    }
  }

  /** An optional line is there exactly when its condition holds. */
  lemma InOpt<L>(cond: bool, line: L, x: L)
    ensures x in Opt(cond, line) <==> cond && x == line
  {
  }

  lemma AppendAssoc<L>(a: seq<L>, b: seq<L>, c: seq<L>)
    ensures a + b + c == a + (b + c)
  {
  }

  /** `s` begins with `p`. */
  predicate StartsWith<T(==)>(s: seq<T>, p: seq<T>) {
    |p| <= |s| && s[..|p|] == p
  }

  /** `s` ends with `q`. */
  predicate EndsWith<T(==)>(s: seq<T>, q: seq<T>) {
    |q| <= |s| && s[|s| - |q|..] == q
  }

  /** A sequence begins with any of its prefixes. */
  lemma StartsWithAppend<T>(s: seq<T>, t: seq<T>)
    ensures StartsWith(s + t, s)
  {
    assert (s + t)[..|s|] == s;
  }

  /** A sequence ends with any of its suffixes. */
  lemma EndsWithAppend<T>(s: seq<T>, t: seq<T>)
    ensures EndsWith(s + t, t)
  {
    assert (s + t)[|s + t| - |t|..] == t;
  }

  /** Whatever follows does not change how a sequence begins. */
  lemma StartsWithExtend<T>(s: seq<T>, p: seq<T>, t: seq<T>)
    requires StartsWith(s, p)
    ensures StartsWith(s + t, p)
  {
    assert (s + t)[..|p|] == s[..|p|];
  }

  /** The same thing put in front of both keeps one the beginning of the other. */
  lemma StartsWithCons<T>(a: seq<T>, s: seq<T>, p: seq<T>)
    requires StartsWith(s, p)
    ensures StartsWith(a + s, a + p)
  {
    assert (a + s)[..|a + p|] == a + s[..|p|];
  }
}
