/** The bounded turn memory of a conversation: a FIFO of (role, text) turns
    that keeps the most recent `2 * k` entries (k user/assistant exchanges)
    and renders them as a `User:` / `Assistant:` transcript. */
module Memory {
  import opened Text

  datatype Role = User | Assistant

  datatype Turn = Turn(role: Role, text: string)

  function Min(a: int, b: int): int {
    if a <= b then a else b
  }

  /** Python's `s[start:]` for any integer `start`: a negative start counts
      from the end and both ends are clamped to the sequence. */
  function SliceFrom<T>(s: seq<T>, start: int): seq<T> {
    var b := if start < 0 then (if start + |s| < 0 then 0 else start + |s|)
             else (if start > |s| then |s| else start);
    s[b..]
  }

  /** The retained window `turns[-2*k:]`. */
  function Window(turns: seq<Turn>, k: int): seq<Turn> {
    SliceFrom(turns, -2 * k)
  }

  /** With `k >= 1` the window is the newest `min(2k, |s|)` turns, in order. */
  lemma WindowKeepsNewest(s: seq<Turn>, k: int)
    requires k >= 1
    ensures |Window(s, k)| == Min(2 * k, |s|)
    ensures Window(s, k) == s[|s| - Min(2 * k, |s|)..]
  {
  }

  /** A window that is not full holds every turn. */
  lemma WindowOfShort(s: seq<Turn>, k: int)
    requires k >= 1 && |s| <= 2 * k
    ensures Window(s, k) == s
  {
    WindowKeepsNewest(s, k);
  }

  /** `ts` ends with the turns `tail`. */
  predicate EndsWith(ts: seq<Turn>, tail: seq<Turn>) {
    |tail| <= |ts| && ts[|ts| - |tail|..] == tail
  }

  /** Adding a turn to a full-or-not window keeps the turn that was newest
      right before the new one (`k >= 1` leaves room for two). */
  lemma WindowKeepsLastTwo(turns: seq<Turn>, u: Turn, x: Turn, k: int)
    requires k >= 1 && |turns| <= 2 * k && EndsWith(turns, [u])
    ensures |Window(turns + [x], k)| <= 2 * k && EndsWith(Window(turns + [x], k), [u, x])
  {
    WindowKeepsNewest(turns + [x], k);
    var w := Window(turns + [x], k);
    assert w[|w| - 1] == x;
    assert w[|w| - 2] == turns[|turns| - 1];
    assert w[|w| - 2..] == [u, x];
  }

  /** With `k == 0` the slice `turns[-0:]` is the whole list: nothing is evicted. */
  lemma WindowOfZero(s: seq<Turn>)
    ensures Window(s, 0) == s
  {
  }

  /** Windowing twice is windowing the whole history once. */
  lemma WindowOfWindow(a: seq<Turn>, b: seq<Turn>, k: int)
    requires k >= 1
    ensures Window(Window(a, k) + b, k) == Window(a + b, k)
  {
    WindowKeepsNewest(a, k);
    var w := Window(a, k);
    WindowKeepsNewest(w + b, k);
    WindowKeepsNewest(a + b, k);
    var n := Min(2 * k, |a| + |b|);
    assert Min(2 * k, |w| + |b|) == n;
    forall p | |a| + |b| - n <= p < |a| + |b|
      ensures (w + b)[p - |a| + |w|] == (a + b)[p]
    {
      if p < |a| {
        assert (w + b)[p - |a| + |w|] == w[p - |a| + |w|] == a[p];
      }
    }
    assert Window(w + b, k) == (w + b)[|w| + |b| - n..];
    assert Window(a + b, k) == (a + b)[|a| + |b| - n..];
  }

  /** Recording the turns `xs` one at a time, windowing after each. */
  function Replay(k: int, turns: seq<Turn>, xs: seq<Turn>): seq<Turn>
    decreases |xs|
  {
    if xs == [] then turns else Replay(k, Window(turns + [xs[0]], k), xs[1..])
  }

  /** FIFO law: after any sequence of recordings the memory holds exactly the
      most recent `min(2k, n)` turns of the whole history, in their order. */
  lemma {:induction false} ReplayIsWindow(k: int, turns: seq<Turn>, xs: seq<Turn>)
    requires k >= 1 && |turns| <= 2 * k
    ensures Replay(k, turns, xs) == Window(turns + xs, k)
    decreases |xs|
  {
    if xs == [] {
      assert turns + xs == turns;
      WindowKeepsNewest(turns, k);
    } else {
      WindowKeepsNewest(turns + [xs[0]], k);
      ReplayIsWindow(k, Window(turns + [xs[0]], k), xs[1..]);
      WindowOfWindow(turns + [xs[0]], xs[1..], k);
      assert turns + [xs[0]] + xs[1..] == turns + xs;
    }
  }

  /** One transcript line: `"User: <text>"` or `"Assistant: <text>"`. */
  function Line(t: Turn): string {
    (if t.role == User then "User:" else "Assistant:") + " " + t.text
  }

  function Lines(turns: seq<Turn>): (r: seq<string>)
    ensures |r| == |turns|
  {
    seq(|turns|, i requires 0 <= i < |turns| => Line(turns[i]))
  }

  /** The transcript: one line per turn, joined by newlines. */
  function Transcript(turns: seq<Turn>): string {
    Join(Lines(turns), "\n")
  }

  /** The transcript is empty for no turns; otherwise, when no turn text holds
      a newline, splitting it at newlines gives exactly one line per turn, in
      order, each with its role prefix. */
  lemma TranscriptLines(turns: seq<Turn>)
    requires forall m :: 0 <= m < |turns| ==> '\n' !in turns[m].text
    ensures turns == [] ==> Transcript(turns) == ""
    ensures turns != [] ==> Split(Transcript(turns), '\n') == Lines(turns)
  {
    if turns != [] {
      var ls := Lines(turns);
      forall m | 0 <= m < |ls| ensures '\n' !in ls[m] {
        var prefix := if turns[m].role == User then "User:" else "Assistant:";
        assert ls[m] == prefix + " " + turns[m].text;
        assert '\n' !in prefix + " ";
      }
      SplitJoin(ls, '\n');
    }
  }

  class ConversationMemory {
    const k: int
    var turns: seq<Turn>

    ghost predicate Valid()
      reads this
    {
      k >= 1 && |turns| <= 2 * k
    }

    constructor (k: int)
      requires k >= 1
      ensures Valid() && this.k == k && turns == []
    {
      this.k := k;
      turns := [];
    }

    method AddUser(text: string)
      requires Valid()
      modifies this
      ensures Valid()
      ensures turns == Window(old(turns) + [Turn(User, text)], k)
    {
      turns := turns + [Turn(User, text)];
      turns := Window(turns, k);
      WindowKeepsNewest(old(turns) + [Turn(User, text)], k);
    }

    method AddAssistant(text: string)
      requires Valid()
      modifies this
      ensures Valid()
      ensures turns == Window(old(turns) + [Turn(Assistant, text)], k)
    {
      turns := turns + [Turn(Assistant, text)];
      turns := Window(turns, k);
      WindowKeepsNewest(old(turns) + [Turn(Assistant, text)], k);
    }

    /** Renders the retained window; changes nothing. */
    method Context() returns (r: string)
      requires Valid()
      ensures r == Transcript(turns)
    {
      var window := Window(turns, k);
      var buf: seq<string> := [];
      for i := 0 to |window|
        invariant buf == Lines(window[..i])
      {
        var prefix := if window[i].role == User then "User:" else "Assistant:";
        buf := buf + [prefix + " " + window[i].text];
      }
      WindowKeepsNewest(turns, k);
      assert window[..|window|] == window == turns;
      r := Join(buf, "\n");
    }
  }
}
