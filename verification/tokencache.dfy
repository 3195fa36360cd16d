/**
 * The two-slot cache of the Copilot token: the token and its expiry are written one after
 * the other and either write may fail, reported or not what it wrote.
 */
module TokenCache {
  import opened Options

  /** A minted token with the time until which GitHub honours it. */
  datatype Token = Token(text: string, until: int)

  /** The two slots; an expiry that is absent or does not parse is None. */
  datatype Slots = Slots(token: Option<Token>, expiry: Option<int>)

  /** A write that reports success has written; one that reports an error may have. */
  datatype Put = Put(written: bool, ok: bool)

  predicate Possible(p: Put) { p.ok ==> p.written }

  /** One call's surroundings: clock, whether the two reads work, what the mint answers, the two writes. */
  datatype Call = Call(now: int, readsToken: bool, readsExpiry: bool, mint: Option<Token>, putToken: Put,
                       putExpiry: Put)

  datatype Served = Served(token: Token, expiry: int, fromCache: bool)

  const MARGIN := 60

  function ReadCached(s: Slots, c: Call): Option<Served> {
    if !c.readsToken || s.token.None? || s.token.value.text == "" then None
    else if !c.readsExpiry || s.expiry.None? then None
    else if s.expiry.value - c.now <= MARGIN then None
    else Some(Served(s.token.value, s.expiry.value, true))
  }

  function WriteCached(s: Slots, c: Call, t: Token): Slots {
    var s1 := if c.putToken.written then s.(token := Some(t)) else s;
    if c.putToken.ok && c.putExpiry.written then s1.(expiry := Some(t.until)) else s1
  }

  function Answer(s: Slots, c: Call): Option<Served> {
    if ReadCached(s, c).Some? then ReadCached(s, c)
    else if c.mint.None? then None
    else Some(Served(c.mint.value, c.mint.value.until, false))
  }

  function After(s: Slots, c: Call): Slots {
    if ReadCached(s, c).Some? || c.mint.None? then s else WriteCached(s, c, c.mint.value)
  }

  class Store {
    var token: Option<Token>
    var expiry: Option<int>

    function Contents(): Slots
      reads this
    {
      Slots(token, expiry)
    }

    /** ResolveCopilotToken; a failed cache write is not an error of the call. */
    method Resolve(c: Call) returns (r: Option<Served>)
      requires Possible(c.putToken) && Possible(c.putExpiry)
      modifies this
      ensures r == Answer(old(Contents()), c) && Contents() == After(old(Contents()), c)
      ensures r.Some? && r.value.fromCache && Honest(old(Contents())) ==> r.value.token.until - c.now > 60
    {
      if c.readsToken && token.Some? && token.value.text != "" && c.readsExpiry && expiry.Some?
        && expiry.value - c.now > MARGIN {
        return Some(Served(token.value, expiry.value, true));
      }
      if c.mint.None? {
        return None;
      }
      if c.putToken.written {
        token := c.mint;
      }
      if c.putToken.ok {
        if c.putExpiry.written {
          expiry := Some(c.mint.value.until);
        }
      }
      return Some(Served(c.mint.value, c.mint.value.until, false));
    }
  }

  /** The stored expiry does not overstate the stored token's life. */
  predicate Honest(s: Slots) {
    s.token.Some? && s.expiry.Some? ==> s.expiry.value <= s.token.value.until
  }

  /** Exactly which call breaks honesty: a token written alone, older than the expiry left beside it. */
  lemma HonestyBreaksIff(s: Slots, c: Call)
    requires Honest(s) && Possible(c.putToken) && Possible(c.putExpiry)
    ensures !Honest(After(s, c)) <==>
              && ReadCached(s, c).None? && c.mint.Some? && c.putToken.written
              && !(c.putToken.ok && c.putExpiry.written)
              && s.expiry.Some? && c.mint.value.until < s.expiry.value
  {
  }

  function SlotsAfter(calls: seq<Call>): Slots {
    if calls == [] then Slots(None, None) else After(SlotsAfter(calls[..|calls| - 1]), calls[|calls| - 1])
  }

  /** Minted expiries never go backwards. */
  ghost predicate Forward(calls: seq<Call>) {
    && (forall i :: 0 <= i < |calls| ==> Possible(calls[i].putToken) && Possible(calls[i].putExpiry))
    && forall i, j :: 0 <= i < j < |calls| && calls[i].mint.Some? && calls[j].mint.Some? ==>
         calls[i].mint.value.until <= calls[j].mint.value.until
  }

  /** What is stored came from some earlier mint. */
  ghost predicate Minted(calls: seq<Call>, until: int) {
    exists i :: 0 <= i < |calls| && calls[i].mint.Some? && calls[i].mint.value.until == until
  }

  lemma {:induction false} HonestAlways(calls: seq<Call>)
    requires Forward(calls)
    ensures Honest(SlotsAfter(calls))
    ensures SlotsAfter(calls).expiry.Some? ==> Minted(calls, SlotsAfter(calls).expiry.value)
    decreases |calls|
  {
    if calls != [] {
      var n := |calls| - 1;
      var front, c := calls[..n], calls[n];
      HonestAlways(front);
      var s, t := SlotsAfter(front), SlotsAfter(calls);
      HonestyBreaksIff(s, c);
      if s.expiry.Some? {
        var i :| 0 <= i < |front| && front[i].mint.Some? && front[i].mint.value.until == s.expiry.value;
        assert calls[i] == front[i] && calls[n] == c;
        assert Minted(calls, s.expiry.value);
      }
      if t.expiry != s.expiry {
        assert calls[n].mint.Some? && calls[n].mint.value.until == t.expiry.value;
      }
    }
  }

  /**
   * One caller, any failures of reads and writes, minted expiries that never go backwards:
   * every token served from the cache lives for more than a minute still.
   */
  lemma CachedTokensHaveAMinuteLeft(calls: seq<Call>, k: nat)
    requires k < |calls| && Forward(calls)
    ensures var r := Answer(SlotsAfter(calls[..k]), calls[k]);
            r.Some? && r.value.fromCache ==> r.value.token.until - calls[k].now > 60
  {
    HonestAlways(calls[..k]);
  }

  /** With expiries that go backwards a dead token can be served. */
  lemma BackwardsExpiryServesADeadToken()
    ensures exists calls: seq<Call>, c: Call ::
              && (forall i :: 0 <= i < |calls| ==> Possible(calls[i].putToken) && Possible(calls[i].putExpiry))
              && Answer(SlotsAfter(calls), c).Some? && Answer(SlotsAfter(calls), c).value.fromCache
              && Answer(SlotsAfter(calls), c).value.token.until < c.now
  {
    var good, bad := Put(true, true), Put(false, false);
    var c1 := Call(0, true, true, Some(Token("a", 1000)), good, good);
    var c2 := Call(100, true, false, Some(Token("b", 200)), good, bad);
    var c3 := Call(300, true, true, None, good, good);
    var calls := [c1, c2];
    assert calls[..1] == [c1] && calls[..1][..0] == [];
    assert SlotsAfter([]) == Slots(None, None);
    assert SlotsAfter([c1]) == Slots(Some(Token("a", 1000)), Some(1000));
    assert SlotsAfter(calls) == Slots(Some(Token("b", 200)), Some(1000));
    assert Answer(SlotsAfter(calls), c3) == Some(Served(Token("b", 200), 1000, true));
  }
}
