/**
 `PeerConnectionManager` as it runs when nothing interrupts it, over the browser's connection object
 (apps/web/src/lib/webrtc.ts:231-664). Every method is tied to the functions of `Signaling` and `Quality`;
 what interruptions add is the subject of `Interleaving` and `IceCandidates`.
 */
module PeerConnection {
  import opened Options
  import opened Signaling
  import opened Quality

  /** The browser's RTCPeerConnection: a signaling state and a record of the candidates given to it. */
  class RtcPeerConnection {
    const browser: Browser                // how a local offer can be undone
    const readable: Description -> bool   // which remote descriptions make sense to it
    const accepts: nat -> bool            // which candidates are accepted
    var signal: Signal
    var session: Option<Session>
    var candidates: seq<nat>

    constructor (browser: Browser, readable: Description -> bool, accepts: nat -> bool)
      ensures this.browser == browser && this.readable == readable && this.accepts == accepts
      ensures signal == Stable && session == None && candidates == []
    {
      this.browser, this.readable, this.accepts := browser, readable, accepts;
      signal, session, candidates := Stable, None, [];
    }

    predicate CanSetLocal(d: LocalDescription)
      reads this
    {
      match d
      case LocalOffer(_) => signal.Stable? || signal.HaveLocalOffer?
      case LocalAnswer(o) => signal == HaveRemoteOffer(o)
      case Rollback => signal.HaveLocalOffer? && browser.rollsBack
    }

    /** Resolves (`ok`) or rejects without effect. */
    method SetLocalDescription(d: LocalDescription) returns (ok: bool)
      modifies this`signal, this`session
      ensures ok == old(CanSetLocal(d))
      ensures !ok ==> signal == old(signal)
      ensures ok ==> signal == if d.LocalOffer? then HaveLocalOffer(d.id) else Stable
      ensures session == if ok && d.LocalAnswer? then Some(Session(d.to, d.to)) else old(session)
    {
      ok := CanSetLocal(d);
      if ok {
        if d.LocalAnswer? {
          session := Some(Session(d.to, d.to));
        }
        signal := if d.LocalOffer? then HaveLocalOffer(d.id) else Stable;
      }
    }

    predicate CanSetRemote(d: Description)
      reads this
    {
      && readable(d)
      && if d.Answer? then signal.HaveLocalOffer?
         else !signal.Closed? && (signal.HaveLocalOffer? ==> browser.givesWay)
    }

    method SetRemoteDescription(d: Description) returns (ok: bool)
      modifies this`signal, this`session
      ensures ok == old(CanSetRemote(d))
      ensures !ok ==> signal == old(signal) && session == old(session)
      ensures ok && d.Offer? ==> signal == HaveRemoteOffer(d.id) && session == old(session)
      ensures ok && d.Answer? ==> signal == Stable && session == Some(Session(old(signal).offer, d.to))
    {
      ok := CanSetRemote(d);
      if ok {
        if d.Answer? {
          session := Some(Session(signal.offer, d.to));
          signal := Stable;
        } else {
          signal := HaveRemoteOffer(d.id);
        }
      }
    }

    method AddIceCandidate(candidate: nat) returns (ok: bool)
      modifies this`candidates
      ensures candidates == old(candidates) + [candidate]
    {
      candidates := candidates + [candidate];
      ok := !signal.Closed? && accepts(candidate);
    }

    method Close()
      modifies this`signal
      ensures signal == Closed
    {
      signal := Closed;
    }
  }

  datatype Outcome = Returned(applied: bool) | Threw

  /** What a quality sample finds when it asks for stats. */
  datatype Stats = Report(stats: seq<Stat>) | Unavailable

  class PeerConnectionManager {
    const polite: bool
    const pc: RtcPeerConnection
    var pendingCandidates: seq<nat>
    var hasRemoteDescription: bool
    var closed: bool
    var lastStats: Option<Counters>
    ghost var ticks: seq<Tick>   // what has happened to the loss baseline so far

    /** Over any run of the methods, the baseline held is that of the history. */
    ghost predicate Valid()
      reads this, pc
    {
      && (closed <==> pc.signal.Closed?)
      && (hasRemoteDescription ==> pendingCandidates == [])
      && lastStats == Baseline(ticks)
    }

    /** The view of this object that `Signaling` works on. */
    function AsPeer(): Peer
      reads this, pc
    {
      Peer(polite, pc.signal, pc.session)
    }

    constructor (isInitiator: bool, browser: Browser, readable: Description -> bool, accepts: nat -> bool)
      ensures Valid() && fresh(pc) && !closed && !hasRemoteDescription && pendingCandidates == [] && ticks == []
      ensures AsPeer() == Peer(!isInitiator, Stable, None) && pc.candidates == []
      ensures pc.browser == browser && pc.readable == readable && pc.accepts == accepts
    {
      polite := !isInitiator;
      pc := new RtcPeerConnection(browser, readable, accepts);
      pendingCandidates, hasRemoteDescription, closed, lastStats, ticks := [], false, false, None, [];
    }

    /** Returns the offer, or `None` if it throws. */
    method CreateOffer(id: nat, iceRestart: bool) returns (offer: Option<nat>)
      requires Valid()
      modifies this`lastStats, this`ticks, pc`signal, pc`session
      ensures Valid() && pc.candidates == old(pc.candidates)
      ensures match Signaling.CreateOffer(old(AsPeer()), id, pc.browser)
              case Some(p) =>
                && offer == Some(id) && AsPeer() == p
                && ticks == old(ticks) + (if iceRestart then [Restarted] else [])
              case None => offer == None && AsPeer() == old(AsPeer()) && ticks == old(ticks)
      ensures offer.Some? <==> old(pc.signal.Stable? || pc.signal.HaveLocalOffer?)
      ensures offer.Some? ==> pc.signal == HaveLocalOffer(id) && pc.session == old(pc.session)
    {
      var ok := pc.SetLocalDescription(LocalOffer(id));
      if !ok {
        return None;
      }
      if iceRestart {
        lastStats := None;
        ticks := ticks + [Restarted];
      }
      offer := Some(id);
    }

    /** Returns which offer the answer is for, or `None` if it throws. */
    method CreateAnswer() returns (to: Option<nat>)
      requires Valid()
      modifies pc`signal, pc`session
      ensures Valid()
      ensures match Signaling.CreateAnswer(old(AsPeer()), pc.browser)
              case Some(p) => to == Some(old(pc.signal).offer) && AsPeer() == p
              case None => to == None && AsPeer() == old(AsPeer())
      ensures to.Some? <==> old(pc.signal.HaveRemoteOffer?)
      ensures to.Some? ==> pc.signal == Stable && pc.session == Some(Session(to.value, to.value))
    {
      if !pc.signal.HaveRemoteOffer? {
        return None;
      }
      to := Some(pc.signal.offer);
      var _ := pc.SetLocalDescription(LocalAnswer(to.value));
    }

    /**
     Agrees with `Signaling.SetRemoteDescription`; when applied, everything queued has been handed over in
     order, whether or not the browser took it. A description the browser cannot read is thrown at only
     after the local offer in its way has been rolled back, which is then lost.
     */
    method SetRemoteDescription(d: Description) returns (o: Outcome)
      requires Valid()
      modifies this`pendingCandidates, this`hasRemoteDescription, pc`signal, pc`session, pc`candidates
      ensures Valid()
      ensures match Signaling.SetRemoteDescription(old(AsPeer()), d, pc.browser, pc.readable(d))
              case Applied(p) =>
                && o == Returned(true) && AsPeer() == p && hasRemoteDescription && pendingCandidates == []
                && pc.candidates == old(pc.candidates) + old(pendingCandidates)
              case Skipped => o == Returned(false) && unchanged(this) && unchanged(pc)
              case Rejected(p) =>
                && o == Threw && AsPeer() == p && unchanged(this) && pc.candidates == old(pc.candidates)
                && (p != old(AsPeer()) ==>
                      d.Offer? && p == old(AsPeer()).(signal := Stable) && old(pc.signal.HaveLocalOffer?))
      ensures var waiting := old(pc.signal.HaveLocalOffer?);
              && (o == Returned(false) <==> if d.Answer? then !waiting else waiting && !polite)
              && (o == Returned(true) <==>
                    && pc.readable(d)
                    && if d.Answer? then waiting
                       else !old(pc.signal.Closed?)
                            && (waiting ==> polite && (pc.browser.rollsBack || pc.browser.givesWay)))
              && (o == Returned(true) ==>
                    if d.Offer? then pc.signal == HaveRemoteOffer(d.id) && pc.session == old(pc.session)
                    else pc.signal == Stable && pc.session == Some(Session(old(pc.signal).offer, d.to)))
    {
      if d.Answer? && !pc.signal.HaveLocalOffer? {
        return Returned(false);
      }
      if d.Offer? {
        var collision := pc.signal.HaveLocalOffer?;
        if collision {
          if !polite {
            return Returned(false);
          }
          var _ := pc.SetLocalDescription(Rollback);
        }
      }
      var ok := pc.SetRemoteDescription(d);
      if !ok {
        return Threw;
      }
      hasRemoteDescription := true;
      FlushPendingCandidates();
      o := Returned(true);
    }

    method AddIceCandidate(candidate: nat)
      requires Valid()
      modifies this`pendingCandidates, pc`candidates
      ensures Valid()
      ensures hasRemoteDescription ==>
                pc.candidates == old(pc.candidates) + [candidate] && pendingCandidates == old(pendingCandidates)
      ensures !hasRemoteDescription ==>
                pendingCandidates == old(pendingCandidates) + [candidate] && pc.candidates == old(pc.candidates)
    {
      if !hasRemoteDescription {
        pendingCandidates := pendingCandidates + [candidate];
        return;
      }
      var _ := pc.AddIceCandidate(candidate);
    }

    /** A candidate the browser refuses does not stop the ones behind it. */
    method FlushPendingCandidates()
      modifies this`pendingCandidates, pc`candidates
      ensures pendingCandidates == []
      ensures pc.candidates == old(pc.candidates) + old(pendingCandidates)
    {
      var queued := pendingCandidates;
      pendingCandidates := [];
      for i := 0 to |queued|
        invariant pendingCandidates == []
        invariant pc.candidates == old(pc.candidates) + queued[..i]
      {
        var _ := pc.AddIceCandidate(queued[i]);
      }
      assert queued[..|queued|] == queued;
    }

    /** `supported` and `throws` say how the browser's own restartIce behaves. */
    method RestartIce(supported: bool, throws: bool) returns (invoked: bool)
      requires Valid()
      modifies this`lastStats, this`ticks
      ensures Valid() && invoked == (!closed && supported && !throws)
      ensures ticks == old(ticks) + (if invoked then [Restarted] else [])
    {
      if closed || !supported || throws {
        return false;
      }
      lastStats := None;
      ticks := ticks + [Restarted];
      invoked := true;
    }

    /** `closing` says that the call is torn down while the stats are being fetched. */
    method SampleQuality(stats: Stats, closing: bool) returns (sample: Option<(Level, Metrics)>)
      requires Valid()
      modifies this, pc
      ensures Valid()
      ensures sample == None <==> old(closed) || closing || stats.Unavailable?
      ensures sample.Some? ==>
                var r := Read(stats.stats);
                var loss := if r.counters.Some? then Loss(old(lastStats), r.counters.value) else None;
                && sample.value.1 == Metrics(r.rttMs, loss, r.jitterMs)
                && GradedByCuts(sample.value.1, sample.value.0)
                && ticks == old(ticks) + [if r.counters.Some? then Measured(r.counters.value) else Unmeasured]
      ensures !closing || old(closed) ==> AsPeer() == old(AsPeer())
      ensures closing ==> closed
      ensures sample == None && !closing ==> ticks == old(ticks)
    {
      if closed {
        return None;
      }
      if closing {
        Close();
      }
      if stats.Unavailable? || closed {
        return None;
      }
      var r := ReadReport(stats.stats);
      var loss: Option<real> := None;
      if r.counters.Some? {
        var now := r.counters.value;
        if lastStats.Some? {
          var dLost := now.lost - lastStats.value.lost;
          var dRecv := now.received - lastStats.value.received;
          var denom := dLost + dRecv;
          if denom > 0 && dLost >= 0 && dRecv >= 0 {
            loss := Some(dLost as real / denom as real);
          } else if denom <= 0 {
            loss := Some(0.0);
          }
        }
        lastStats := Some(now);
      }
      ticks := ticks + [if r.counters.Some? then Measured(r.counters.value) else Unmeasured];
      var m := Metrics(r.rttMs, loss, r.jitterMs);
      var level := ScoreQuality(m);
      sample := Some((level, m));
    }

    method Close()
      requires Valid()
      modifies this`closed, this`pendingCandidates, this`lastStats, this`ticks, pc`signal
      ensures Valid() && closed && pc.candidates == old(pc.candidates)
      ensures AsPeer() == old(AsPeer()).(signal := Closed)
      ensures !old(closed) ==> pendingCandidates == [] && ticks == old(ticks) + [Restarted]
      ensures old(closed) ==> unchanged(this) && unchanged(pc)
    {
      if closed {
        return;
      }
      closed := true;
      pendingCandidates := [];
      lastStats := None;
      ticks := ticks + [Restarted];
      pc.Close();
    }
  }
}
