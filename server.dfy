/**
 * A server record (Domain/Models/Server.py): an id, a name and an
 * append-only ledger of the ids of the faults it has suffered.
 *
 * Names: `id_servera` is `id`, `naziv` is `name`, `lista_otkaza` is `faults`
 * and `dodaj_otkaz` is `AddFault`.
 */
module ServerModel {
  import opened Values

  /** The ledger after one `dodaj_otkaz(v)` call: `v` appended when it is an int, unchanged otherwise. */
  function LedgerAfter(ledger: seq<int>, v: Value): (r: seq<int>)
    ensures ledger <= r
    ensures |r| == |ledger| + 1 <==> IsInt(v)
    ensures |r| <= |ledger| + 1
    ensures IsInt(v) ==> r[|ledger|] == IntOf(v)
  {
    if IsInt(v) then ledger + [IntOf(v)] else ledger
  }

  /** The ledger after a series of `dodaj_otkaz` calls, in order. */
  function Replay(ledger: seq<int>, calls: seq<Value>): (r: seq<int>)
    ensures ledger <= r
    ensures |r| <= |ledger| + |calls|
    decreases |calls|
  {
    if calls == [] then ledger else Replay(LedgerAfter(ledger, calls[0]), calls[1..])
  }

  /** The ids, in order, of the calls that succeed. */
  function AcceptedIds(calls: seq<Value>): seq<int>
    decreases |calls|
  {
    if calls == [] then []
    else (if IsInt(calls[0]) then [IntOf(calls[0])] else []) + AcceptedIds(calls[1..])
  }

  /**
   * The ledger is append-only: whatever calls are made, the old ledger is a
   * prefix of the new one, and what follows it is exactly the ids of the
   * successful calls, so its length grows by the number of successful calls.
   */
  lemma {:induction false} ReplayAppendsAccepted(ledger: seq<int>, calls: seq<Value>)
    ensures Replay(ledger, calls) == ledger + AcceptedIds(calls)
    ensures ledger <= Replay(ledger, calls)
    ensures |Replay(ledger, calls)| == |ledger| + |AcceptedIds(calls)|
    decreases |calls|
  {
    if calls != [] {
      var head := if IsInt(calls[0]) then [IntOf(calls[0])] else [];
      var next := LedgerAfter(ledger, calls[0]);
      assert next == ledger + head;
      assert AcceptedIds(calls) == head + AcceptedIds(calls[1..]);
      ReplayAppendsAccepted(next, calls[1..]);
      ConcatAssoc(ledger, head, AcceptedIds(calls[1..]));
    }
  }

  /** `str(server)`, from its three parts. */
  function ServerText(id: string, name: string, count: nat): string {
    "ID: " + id + "\n" + name + "\nFaulty Times: " + NatToString(count) + "\n"
  }

  /** The number of trailing decimal digits of `s`. */
  function TrailingDigits(s: string): (n: nat)
    ensures n <= |s|
    ensures AllDigits(s[|s| - n..])
    ensures n < |s| ==> !IsDigit(s[|s| - n - 1])
    decreases |s|
  {
    if s != [] && IsDigit(s[|s| - 1]) then
      var init := s[..|s| - 1];
      var m := TrailingDigits(init);
      assert s[|s| - (m + 1)..] == init[|init| - m..] + [s[|s| - 1]];
      m + 1
    else 0
  }

  lemma {:induction false} TrailingDigitsOfSuffix(p: string, d: string)
    requires p != [] && !IsDigit(p[|p| - 1]) && AllDigits(d)
    ensures TrailingDigits(p + d) == |d|
    decreases |d|
  {
    if d != [] {
      assert (p + d)[..|p + d| - 1] == p + d[..|d| - 1];
      TrailingDigitsOfSuffix(p, d[..|d| - 1]);
    } else {
      assert p + d == p;
    }
  }

  /** Reads the fault count back from a text shaped like `str(server)`. */
  function FaultCountFromText(t: string): nat {
    if t == [] then 0
    else
      var body := t[..|t| - 1];
      ParseDigits(body[|body| - TrailingDigits(body)..])
  }

  /** The fault count shown by `str(server)` can be read back, whatever the id and name are. */
  lemma ServerTextShowsCount(id: string, name: string, count: nat)
    ensures FaultCountFromText(ServerText(id, name, count)) == count
  {
    var digits := NatToString(count);
    var head := "ID: " + id + "\n" + name + "\nFaulty Times: ";
    var t := ServerText(id, name, count);
    assert t == head + digits + "\n";
    var body := t[..|t| - 1];
    assert body == head + digits;
    TrailingDigitsOfSuffix(head, digits);
    assert body[|body| - TrailingDigits(body)..] == digits;
    ParseNatToString(count);
  }

  class Server {
    var id: string
    var name: string
    var faults: seq<int>

    /**
     * `Server(naziv, lista_otkaza=None)`. The uuid4 text that the source
     * generates is passed in as `id`. Without a list the ledger starts empty;
     * a supplied list becomes the ledger as it is.
     */
    constructor (id: string, name: string, faults: Option<seq<int>> := None)
      ensures this.id == id && this.name == name
      ensures faults.None? ==> this.faults == []
      ensures faults.Some? ==> this.faults == faults.value
    {
      this.id := id;
      this.name := name;
      this.faults := if faults.Some? then faults.value else [];
    }

    /**
     * `dodaj_otkaz(otkaz_id)`: an int (or bool) id is appended to the ledger;
     * anything else raises ValueError and leaves the ledger unchanged. The id
     * and the name never change.
     */
    method AddFault(faultId: Value) returns (r: Outcome)
      modifies this
      ensures r == (if IsInt(faultId) then Pass else Fail(ValueError))
      ensures IsInt(faultId) ==> faults == old(faults) + [IntOf(faultId)]
      ensures !IsInt(faultId) ==> faults == old(faults)
      ensures faults == LedgerAfter(old(faults), faultId)
      ensures id == old(id) && name == old(name)
    {
      if IsInt(faultId) {
        faults := faults + [IntOf(faultId)];
        r := Pass;
      } else {
        r := Fail(ValueError);
      }
    }

    /** `__str__`. */
    function ToString(): (t: string)
      reads this
      ensures t == ServerText(id, name, |faults|)
      ensures FaultCountFromText(t) == |faults|
    {
      ServerTextShowsCount(id, name, |faults|);
      ServerText(id, name, |faults|)
    }
  }
}
