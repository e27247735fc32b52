/** The per-session conversation history of the relay: an ordered list of
    role-tagged turns, capped at 20, whose oldest turn is dropped first. */
module History {

  /** `system` only ever appears in the payload sent upstream, never in a stored history. */
  datatype Role = System | User | Assistant

  datatype Turn = Turn(role: Role, content: string)

  /** The cap on a session's history. */
  const MaxTurns: nat := 20

  /** A history as the relay keeps it: at most `MaxTurns` turns, none of them `system`. */
  predicate WellFormed(h: seq<Turn>) {
    |h| <= MaxTurns && forall i :: 0 <= i < |h| ==> h[i].role != System
  }

  /** The most recent `MaxTurns` elements of `s`, in their original order. */
  function Recent<T>(s: seq<T>): (r: seq<T>)
    ensures |r| == if |s| < MaxTurns then |s| else MaxTurns
    ensures r == s[|s| - |r|..]
  {
    if |s| <= MaxTurns then s else s[|s| - MaxTurns..]
  }

  /** `history.push(turn)` followed by `history.shift()` when the length exceeds the cap. */
  function Push(h: seq<Turn>, t: Turn): (r: seq<Turn>)
    ensures |h| < MaxTurns ==> r == h + [t]
    ensures |h| == MaxTurns ==> r == h[1..] + [t]
    ensures r != [] && r[|r| - 1] == t
  {
    var pushed := h + [t];
    if |pushed| > MaxTurns then pushed[1..] else pushed
  }

  /** The turns `ts` pushed one after the other, oldest first. */
  function PushAll(h: seq<Turn>, ts: seq<Turn>): seq<Turn>
    decreases |ts|
  {
    if ts == [] then h else PushAll(Push(h, ts[0]), ts[1..])
  }

  /** Pushing never lets a capped history grow past the cap and keeps it free of `system` turns. */
  lemma PushKeepsWellFormed(h: seq<Turn>, t: Turn)
    requires WellFormed(h) && t.role != System
    ensures WellFormed(Push(h, t))
  {
  }

  /** On a capped history, a push keeps exactly the most recent turns of the history extended by `t`. */
  lemma PushIsRecent(h: seq<Turn>, t: Turn)
    requires |h| <= MaxTurns
    ensures Push(h, t) == Recent(h + [t])
  {
  }

  /** Two pushes onto a capped history keep the most recent turns of the history extended by both, in order. */
  lemma PushTwice(h: seq<Turn>, first: Turn, second: Turn)
    requires |h| <= MaxTurns
    ensures Push(Push(h, first), second) == Recent(h + [first, second])
  {
    PushIsRecent(h, first);
    PushIsRecent(Push(h, first), second);
    RecentOfRecent(h + [first], [second]);
    assert h + [first] + [second] == h + [first, second];
  }

  /** The window of the most recent turns depends only on the most recent turns of the prefix. */
  lemma RecentOfRecent<T>(a: seq<T>, b: seq<T>)
    ensures Recent(Recent(a) + b) == Recent(a + b)
  {
    var ra := Recent(a);
    assert ra + b == (a + b)[|a| - |ra|..];
  }

  /** Any sequence of pushes onto a capped history leaves the most recent
      `MaxTurns` turns of everything pushed, in order: a FIFO of bounded length. */
  lemma {:induction false} PushAllIsRecent(h: seq<Turn>, ts: seq<Turn>)
    requires |h| <= MaxTurns
    ensures PushAll(h, ts) == Recent(h + ts)
    decreases |ts|
  {
    if ts == [] {
      assert h + ts == h;
    } else {
      var next := Push(h, ts[0]);
      assert |next| <= MaxTurns;
      calc {
        PushAll(h, ts);
        PushAll(next, ts[1..]);
        { PushAllIsRecent(next, ts[1..]); }
        Recent(next + ts[1..]);
        { PushIsRecent(h, ts[0]); }
        Recent(Recent(h + [ts[0]]) + ts[1..]);
        { RecentOfRecent(h + [ts[0]], ts[1..]); }
        Recent(h + [ts[0]] + ts[1..]);
        { assert h + [ts[0]] + ts[1..] == h + ts; }
        Recent(h + ts);
      }
    }
  }

  /** Starting from an empty history, the length never exceeds the cap,
      and it is the number of turns pushed until the cap is reached. */
  lemma FromEmpty(ts: seq<Turn>)
    ensures |PushAll([], ts)| == if |ts| < MaxTurns then |ts| else MaxTurns
    ensures |PushAll([], ts)| <= MaxTurns
    ensures PushAll([], ts) == ts[|ts| - |PushAll([], ts)|..]
  {
    PushAllIsRecent([], ts);
    assert [] + ts == ts;
  }

  /** Twenty-one pushes into one session: the first turn has been evicted and
      the history starts with what was pushed second. */
  lemma TwentyOneTurns(ts: seq<Turn>)
    requires |ts| == MaxTurns + 1
    ensures PushAll([], ts) == ts[1..]
    ensures |PushAll([], ts)| == MaxTurns && PushAll([], ts)[0] == ts[1]
  {
    FromEmpty(ts);
  }
}
