/** The sliding token windows of `_token_windows`. */
module Windows {
  import opened Common
  import opened TokenSpans

  datatype Policy = Policy(maxTokens: nat, overlap: nat, maxChunks: nat)

  /** What `ChunkPolicy` accepts. */
  predicate ValidPolicy(p: Policy) {
    p.maxTokens > 0 && p.overlap < p.maxTokens && p.maxChunks > 0
  }

  function Stride(p: Policy): nat
    requires ValidPolicy(p)
  {
    p.maxTokens - p.overlap
  }

  /** A window as a range of token indices. */
  datatype Window = Window(first: nat, last: nat)

  /** Windows from token `first` on, until one reaches the last of `n` tokens. */
  function WindowsFrom(first: nat, n: nat, p: Policy): (r: seq<Window>)
    requires ValidPolicy(p) && first < n
    ensures r != []
    decreases n - first
  {
    [Window(first, Min(first + p.maxTokens, n))]
    + if first + p.maxTokens < n then WindowsFrom(first + Stride(p), n, p) else []
  }

  // ---- what the windows are ----

  /** Window `k` is `tokens[k*stride .. min(k*stride + max, n)]`, and it is the last exactly when it
      reaches `n`. */
  lemma {:induction false} WindowAt(first: nat, n: nat, p: Policy, k: nat)
    requires ValidPolicy(p) && first < n && k < |WindowsFrom(first, n, p)|
    ensures var w := WindowsFrom(first, n, p);
      && w[k] == Window(first + k * Stride(p), Min(first + k * Stride(p) + p.maxTokens, n))
      && first + k * Stride(p) < n
      && (k == |w| - 1 <==> n <= first + k * Stride(p) + p.maxTokens)
    decreases k
  {
    if k > 0 {
      WindowAt(first + Stride(p), n, p, k - 1);
      assert first + Stride(p) + (k - 1) * Stride(p) == first + k * Stride(p);
    }
  }

  /** A window holds between one token and `max_tokens`; the first starts the text, only the last
      one ends it. */
  lemma WindowBounds(first: nat, n: nat, p: Policy, k: nat)
    requires ValidPolicy(p) && first < n && k < |WindowsFrom(first, n, p)|
    ensures var w := WindowsFrom(first, n, p)[k];
      && first <= w.first < w.last <= n && w.last - w.first <= p.maxTokens
      && (k == 0 ==> w.first == first)
      && (w.last == n <==> k == |WindowsFrom(first, n, p)| - 1)
  {
    WindowAt(first, n, p, k);
  }

  /** Consecutive windows share exactly `overlap` tokens, and each adds a new one. */
  lemma {:induction false} ConsecutiveWindows(first: nat, n: nat, p: Policy, k: nat)
    requires ValidPolicy(p) && first < n && k + 1 < |WindowsFrom(first, n, p)|
    ensures var w := WindowsFrom(first, n, p);
      && w[k].last - w[k + 1].first == p.overlap
      && w[k].first < w[k + 1].first
      && w[k].last < w[k + 1].last
    decreases k
  {
    if k > 0 {
      ConsecutiveWindows(first + Stride(p), n, p, k - 1);
    }
  }

  ghost predicate Covered(w: seq<Window>, i: nat) {
    exists k: nat :: k < |w| && w[k].first <= i < w[k].last
  }

  /** Every token is in a window. */
  lemma {:induction false} WindowsCover(first: nat, n: nat, p: Policy, i: nat)
    requires ValidPolicy(p) && first <= i < n
    ensures Covered(WindowsFrom(first, n, p), i)
    decreases n - first
  {
    var w := WindowsFrom(first, n, p);
    if i < first + p.maxTokens {
      assert w[0].first <= i < w[0].last;
    } else {
      WindowsCover(first + Stride(p), n, p, i);
      var rest := WindowsFrom(first + Stride(p), n, p);
      var k: nat :| k < |rest| && rest[k].first <= i < rest[k].last;
      assert w[k + 1] == rest[k];
    }
  }

  function TotalCount(w: seq<Window>): int {
    if w == [] then 0 else w[0].last - w[0].first + TotalCount(w[1..])
  }

  /** Every window but one repeats `overlap` tokens. */
  lemma {:induction false} CountsAddUp(first: nat, n: nat, p: Policy)
    requires ValidPolicy(p) && first < n
    ensures TotalCount(WindowsFrom(first, n, p)) == n - first + p.overlap * (|WindowsFrom(first, n, p)| - 1)
    decreases n - first
  {
    var w := WindowsFrom(first, n, p);
    if first + p.maxTokens < n {
      var rest := WindowsFrom(first + Stride(p), n, p);
      CountsAddUp(first + Stride(p), n, p);
      assert w[1..] == rest;
      var m := |rest|;
      assert p.overlap * m == p.overlap * (m - 1) + p.overlap;
    } else {
      assert w[1..] == [];
    }
  }

  // ---- the streaming deque emits exactly them ----

  /** A window as the generator yields it: character range and token count. */
  datatype Yielded = Yielded(start: nat, end: nat, count: nat)

  function Render(tokens: seq<Span>, w: Window): Yielded
    requires w.first < w.last <= |tokens|
  {
    Yielded(tokens[w.first].start, tokens[w.last - 1].end, w.last - w.first)
  }

  /** These are the windows, in order. */
  predicate Renders(tokens: seq<Span>, w: seq<Window>, ys: seq<Yielded>) {
    && |ys| == |w|
    && forall k :: 0 <= k < |w| ==> w[k].first < w[k].last <= |tokens| && ys[k] == Render(tokens, w[k])
  }

  /** Drops `count` elements from the left, one at a time. */
  method PopLeft(window: seq<Span>, count: nat) returns (r: seq<Span>)
    requires count <= |window|
    ensures r == window[count..]
  {
    r := window;
    for popped := 0 to count
      invariant r == window[popped..]
    {
      r := r[1..];
    }
  }

  /** Takes up to `count` more tokens from the iterator. */
  method Take(tokens: seq<Span>, next: nat, count: nat) returns (taken: seq<Span>, after: nat)
    requires next <= |tokens|
    ensures after == Min(next + count, |tokens|) && taken == tokens[next..after]
  {
    after := Min(next + count, |tokens|);
    taken := tokens[next..after];
  }

  lemma Refilled(tokens: seq<Span>, first: nat, next: nat, stride: nat, last: nat)
    requires first + stride <= next < last <= |tokens|
    ensures tokens[first..next][stride..] + [tokens[next]] + tokens[next + 1..last] == tokens[first + stride..last]
  {
  }

  /** Pops a stride and refills; stops when the iterator is exhausted. */
  method Slide(tokens: seq<Span>, ghost first: nat, window: seq<Span>, next: nat, p: Policy)
    returns (stop: bool, slid: seq<Span>, after: nat)
    requires ValidPolicy(p) && first < next <= |tokens|
    requires window == tokens[first..next] && |window| == p.maxTokens
    ensures stop <==> next == |tokens|
    ensures !stop ==> after == Min(first + Stride(p) + p.maxTokens, |tokens|)
    ensures !stop ==> first + Stride(p) < after && slid == tokens[first + Stride(p)..after]
  {
    slid := PopLeft(window, p.maxTokens - p.overlap);
    stop, after := next == |tokens|, next;
    if !stop {
      slid := slid + [tokens[next]];
      var more;
      more, after := Take(tokens, next + 1, p.maxTokens - |slid|);
      Refilled(tokens, first, next, Stride(p), after);
      slid := slid + more;
    }
  }

  /** How each window leads to the next. */
  ghost predicate Linked(w: seq<Window>, n: nat, p: Policy)
    requires ValidPolicy(p)
  {
    && |w| > 0 && w[0].first == 0
    && (forall k: nat :: k < |w| ==> w[k].first < w[k].last == Min(w[k].first + p.maxTokens, n))
    && (forall k: nat :: k < |w| ==> (w[k].last == n <==> k + 1 == |w|))
    && (forall k: nat :: 0 < k < |w| ==> w[k].first == w[k - 1].first + Stride(p))
  }

  lemma WindowsAreLinked(n: nat, p: Policy)
    requires ValidPolicy(p) && 0 < n
    ensures Linked(WindowsFrom(0, n, p), n, p)
  {
    var w := WindowsFrom(0, n, p);
    forall k: nat | k < |w| ensures w[k].first < w[k].last == Min(w[k].first + p.maxTokens, n) {
      WindowAt(0, n, p, k);
    }
    forall k: nat | k < |w| ensures w[k].last == n <==> k + 1 == |w| { WindowAt(0, n, p, k); }
    forall k: nat | 0 < k < |w| ensures w[k].first == w[k - 1].first + Stride(p) {
      WindowAt(0, n, p, k - 1);
      ConsecutiveWindows(0, n, p, k - 1);
    }
  }

  lemma RendersMore(tokens: seq<Span>, w: seq<Window>, ys: seq<Yielded>, y: Yielded)
    requires |ys| < |w| && Renders(tokens, w[..|ys|], ys)
    requires w[|ys|].first < w[|ys|].last <= |tokens| && y == Render(tokens, w[|ys|])
    ensures Renders(tokens, w[..|ys| + 1], ys + [y])
    ensures |ys| + 1 == |w| ==> Renders(tokens, w, ys + [y])
  {
    assert w[..|w|] == w;
  }

  /** The loop of `_token_windows`. */
  method Emit(tokens: seq<Span>, p: Policy, ghost w: seq<Window>) returns (yielded: seq<Yielded>)
    requires ValidPolicy(p) && tokens != [] && Linked(w, |tokens|, p)
    ensures Renders(tokens, w, yielded)
  {
    var window, next := Take(tokens, 0, p.maxTokens);
    ghost var first := 0;
    yielded := [];
    while window != []
      invariant window != [] && |yielded| < |w| && first == w[|yielded|].first
      invariant first < next == Min(first + p.maxTokens, |tokens|) && window == tokens[first..next]
      invariant Renders(tokens, w[..|yielded|], yielded)
      decreases |tokens| - first
    {
      var y := Yielded(window[0].start, window[|window| - 1].end, |window|);
      RendersMore(tokens, w, yielded, y);
      yielded := yielded + [y];
      if |window| < p.maxTokens {
        break;
      }
      var stop;
      stop, window, next := Slide(tokens, first, window, next, p);
      if stop {
        break;
      }
      first := first + Stride(p);
    }
  }

  /** `_token_windows` over the token iterator; None stands for the token-empty error. */
  method TokenWindows(tokens: seq<Span>, p: Policy) returns (r: Option<seq<Yielded>>)
    requires ValidPolicy(p)
    ensures r.None? <==> tokens == []
    ensures r.Some? ==> Renders(tokens, WindowsFrom(0, |tokens|, p), r.value)
  {
    if tokens == [] {
      return None;
    }
    WindowsAreLinked(|tokens|, p);
    var yielded := Emit(tokens, p, WindowsFrom(0, |tokens|, p));
    r := Some(yielded);
  }
}
