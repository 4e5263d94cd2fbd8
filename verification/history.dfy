/**
  The client's recent-query history (frontend/src/components/ChatBot.jsx):
  a list of (query, response) pairs, newest last, loaded once from browser
  storage. Once the list passes ten entries, each append drops the oldest
  entry, and only that one.
 */
module History {

  datatype HistoryEntry = HistoryEntry(query: string, response: string)

  const Capacity := 10

  /** What browser storage holds under the history key when the client starts. */
  datatype Stored = NothingStored | Unreadable | Saved(entries: seq<HistoryEntry>)

  /** The initial history: the saved list, or empty when nothing is saved or
      it cannot be read. */
  function LoadHistory(stored: Stored): seq<HistoryEntry> {
    match stored
    case Saved(entries) => entries
    case _ => []
  }

  /** `updateHistory`: append the new entry; past capacity, drop the oldest one. */
  function UpdateHistory(h: seq<HistoryEntry>, e: HistoryEntry): (r: seq<HistoryEntry>)
    ensures |r| > 0 && r[|r| - 1] == e
    ensures |r| == if |h| + 1 > Capacity then |h| else |h| + 1
    ensures r == (h + [e])[|h| + 1 - |r|..]
    ensures |h| <= Capacity ==> |r| <= Capacity
  {
    var updated := h + [e];
    if |updated| > Capacity then updated[1..] else updated
  }

  /** The history after a series of successful turns, oldest turn first. */
  function AppendAll(h: seq<HistoryEntry>, es: seq<HistoryEntry>): seq<HistoryEntry>
    decreases |es|
  {
    if |es| == 0 then h else UpdateHistory(AppendAll(h, es[..|es| - 1]), es[|es| - 1])
  }

  /** The newest `Capacity` entries of a list, oldest first. */
  function Newest(all: seq<HistoryEntry>): (r: seq<HistoryEntry>)
    ensures |r| == if |all| <= Capacity then |all| else Capacity
  {
    if |all| <= Capacity then all else all[|all| - Capacity..]
  }

  /** Recording one more entry on the newest entries of a list gives the
      newest entries of the longer list. */
  lemma KeepsNewestStep(all: seq<HistoryEntry>, e: HistoryEntry)
    ensures UpdateHistory(Newest(all), e) == Newest(all + [e])
  {
    var n := |all| + 1;
    if n > Capacity {
      assert (all + [e])[n - Capacity..] == Newest(all)[1..] + [e];
    }
  }

  /** Starting from at most ten entries, the history always holds exactly the
      newest `Capacity` entries ever recorded (all of them while fewer),
      oldest first. */
  lemma {:induction false} HistoryKeepsNewest(h: seq<HistoryEntry>, es: seq<HistoryEntry>)
    requires |h| <= Capacity
    ensures AppendAll(h, es) == Newest(h + es)
    decreases |es|
  {
    if |es| == 0 {
      assert h + es == h;
    } else {
      var es' := es[..|es| - 1];
      var e := es[|es| - 1];
      HistoryKeepsNewest(h, es');
      KeepsNewestStep(h + es', e);
      assert (h + es') + [e] == h + es;
    }
  }
}
