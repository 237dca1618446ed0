/**
 What one `PeerConnectionManager` does to the offer/answer state of its connection
 (apps/web/src/lib/webrtc.ts). The signaling states are those of section 3.2 of RFC 8829.
 SDP text is abstract: an offer is a number, an answer is known by the offer it was made for.
 */
module Signaling {
  import opened Options

  /** The descriptions in force after an exchange: the offer, and the offer the answer was made for. */
  datatype Session = Session(offer: nat, answered: nat)

  datatype Signal =
    | Stable
    | HaveLocalOffer(offer: nat)
    | HaveRemoteOffer(offer: nat)
    | Closed

  datatype Description = Offer(id: nat) | Answer(to: nat)

  datatype LocalDescription = LocalOffer(id: nat) | LocalAnswer(to: nat) | Rollback

  /** Whether a local offer can be undone on demand, and whether a remote offer undoes it by itself. */
  datatype Browser = Browser(rollsBack: bool, givesWay: bool)

  /** The part of a manager that offers and answers change. */
  datatype Peer = Peer(polite: bool, signal: Signal, session: Option<Session>)

  // What the browser's own two operations do; `None` when they reject.

  function SetLocal(p: Peer, d: LocalDescription, b: Browser): Option<Peer> {
    match d
    case LocalOffer(id) =>
      if p.signal.Stable? || p.signal.HaveLocalOffer? then Some(p.(signal := HaveLocalOffer(id))) else None
    case LocalAnswer(o) =>
      if p.signal == HaveRemoteOffer(o) then Some(p.(signal := Stable, session := Some(Session(o, o)))) else None
    case Rollback =>
      if p.signal.HaveLocalOffer? && b.rollsBack then Some(p.(signal := Stable)) else None
  }

  function SetRemote(p: Peer, d: Description, b: Browser): Option<Peer> {
    match d
    case Answer(to) =>
      if p.signal.HaveLocalOffer? then Some(p.(signal := Stable, session := Some(Session(p.signal.offer, to))))
      else None
    case Offer(id) =>
      if p.signal.Closed? || (p.signal.HaveLocalOffer? && !b.givesWay) then None
      else Some(p.(signal := HaveRemoteOffer(id)))
  }

  // What the manager's methods make of them, when nothing comes between their awaits.

  /** `createOffer`: no test of the signaling state, so an outstanding offer is silently superseded. */
  function CreateOffer(p: Peer, id: nat, b: Browser): Option<Peer> {
    SetLocal(p, LocalOffer(id), b)
  }

  /** `createAnswer`: settles on the remote offer in force; rejected when there is none. */
  function CreateAnswer(p: Peer, b: Browser): Option<Peer> {
    match p.signal
    case HaveRemoteOffer(o) => SetLocal(p, LocalAnswer(o), b)
    case _ => None
  }

  /** How a call of `setRemoteDescription` ends: `true`, `false`, or an exception. */
  datatype Verdict = Applied(peer: Peer) | Skipped | Rejected(peer: Peer)

  /** `setRemoteDescription`; `readable` says whether the browser can make sense of the description. */
  function SetRemoteDescription(p: Peer, d: Description, b: Browser, readable: bool): Verdict {
    if d.Answer? && !p.signal.HaveLocalOffer? then Skipped
    else if d.Offer? && p.signal.HaveLocalOffer? && !p.polite then Skipped
    else
      var undone := if d.Offer? && p.signal.HaveLocalOffer? then SetLocal(p, Rollback, b) else None;
      var p' := if undone.Some? then undone.value else p;
      var taken := if readable then SetRemote(p', d, b) else None;
      if taken.Some? then Applied(taken.value) else Rejected(p')
  }
}
