/**
 * The evidence a browser peer collects about its path
 * (infra/cloudflare/worker/public/peer-proof.js).
 */
module PeerProof {
  import opened Base
  import opened PublicAddress

  /** A STUN candidate, as exchanged through the signaling room. */
  datatype Candidate = Candidate(address: string, port: nat)

  datatype Kind = Host | Srflx | Prflx | Relay | Unknown

  /** One end of the selected pair: `udp` says its protocol, lower-cased, is "udp". */
  datatype End = End(kind: Kind, udp: bool, address: Option<string>)

  datatype Path = Path(pairId: string, local: End, remote: End)

  datatype Evidence = Evidence(observed: bool, different: bool, stable: bool, qualifies: bool)

  function Addresses(cs: seq<Candidate>): set<string> {
    set c | c in cs :: c.address
  }

  predicate DifferentNetworks(local: seq<Candidate>, remote: seq<Candidate>) {
    && local != [] && remote != []
    && (forall a :: a in Addresses(local) + Addresses(remote) ==> PublicV4(a))
    && Addresses(local) !! Addresses(remote)
  }

  predicate ObservedPath(path: Option<Path>, remote: seq<Candidate>) {
    && path.Some?
    && path.value.local.kind in {Host, Srflx, Prflx}
    && path.value.remote.kind in {Host, Srflx, Prflx}
    && path.value.remote.udp
    && path.value.remote.address.Some? && PublicV4(path.value.remote.address.value)
    && exists c :: c in remote && c.address == path.value.remote.address.value
  }

  predicate Stable(before: Option<Path>, after: Option<Path>) {
    before.Some? && after.Some? && before.value.pairId != "" && before.value.pairId == after.value.pairId
  }

  function PathEvidence(before: Option<Path>, after: Option<Path>,
                        local: seq<Candidate>, remote: seq<Candidate>): Evidence {
    var observed := ObservedPath(before, remote) && ObservedPath(after, remote);
    var different := DifferentNetworks(local, remote);
    var stable := Stable(before, after);
    Evidence(observed, different, stable, observed && different && stable)
  }

  lemma AddressIn(cs: seq<Candidate>, c: Candidate)
    requires c in cs
    ensures c.address in Addresses(cs)
  {
  }

  /** Both sides have candidates, all of them public, and share no address. */
  predicate Apart(here: seq<Candidate>, there: seq<Candidate>) {
    && here != [] && there != []
    && (forall c :: c in here + there ==> PublicV4(c.address))
    && (forall c, d :: c in here && d in there ==> c.address != d.address)
  }

  lemma DifferentMeansApart(here: seq<Candidate>, there: seq<Candidate>)
    ensures DifferentNetworks(here, there) <==> Apart(here, there)
  {
    hide PublicV4;
    forall c | c in here ensures c.address in Addresses(here) { AddressIn(here, c); }
    forall c | c in there ensures c.address in Addresses(there) { AddressIn(there, c); }
  }

  /**
   * Two peers that hold each other's candidates judge alike whether their networks
   * differ, whatever paths they measured: it is whether their candidates are apart.
   */
  lemma DifferentIsMutual(before: Option<Path>, after: Option<Path>, peerBefore: Option<Path>, peerAfter: Option<Path>,
                          here: seq<Candidate>, there: seq<Candidate>)
    ensures PathEvidence(before, after, here, there).different <==> Apart(here, there)
    ensures PathEvidence(peerBefore, peerAfter, there, here).different <==> Apart(here, there)
  {
    hide PublicV4;
    DifferentMeansApart(here, there);
    DifferentMeansApart(there, here);
  }

  /** A qualifying remote end is an address outside the excluded ranges, the peer's and none of this side's own. */
  ghost predicate CrossNetwork(p: Path, local: seq<Candidate>, remote: seq<Candidate>) {
    && p.remote.address.Some? && PublicQuad(p.remote.address.value)
    && (exists c :: c in remote && c.address == p.remote.address.value)
    && forall c | c in local :: c.address != p.remote.address.value
  }

  /**
   * Evidence that qualifies names a public address of the peer that is none of this
   * side's own, on one pair that stayed selected.
   */
  lemma QualifyingMeansCrossNetwork(before: Option<Path>, after: Option<Path>,
                                    local: seq<Candidate>, remote: seq<Candidate>)
    requires PathEvidence(before, after, local, remote).qualifies
    ensures before.Some? && after.Some? && before.value.pairId == after.value.pairId
    ensures CrossNetwork(before.value, local, remote) && CrossNetwork(after.value, local, remote)
  {
    hide PublicV4, PublicQuad;
    DifferentMeansApart(local, remote);
    PublicMeansOutside(before.value.remote.address.value);
    PublicMeansOutside(after.value.remote.address.value);
  }

  /** A pair that can be evidence: neither end relayed or unknown, and over UDP to a public address of the peer. */
  ghost predicate DirectToPeer(p: Path, remote: seq<Candidate>) {
    && p.local.kind != Relay && p.local.kind != Unknown
    && p.remote.kind != Relay && p.remote.kind != Unknown
    && p.remote.udp
    && p.remote.address.Some? && PublicQuad(p.remote.address.value)
    && exists c :: c in remote && c.address == p.remote.address.value
  }

  /** Both sides have candidates, each of them four octets outside the excluded ranges, and none in common. */
  ghost predicate PubliclyApart(here: seq<Candidate>, there: seq<Candidate>) {
    && here != [] && there != []
    && (forall c :: c in here + there ==> PublicQuad(c.address))
    && (forall c, d :: c in here && d in there ==> c.address != d.address)
  }

  lemma ObservedMeansDirect(path: Option<Path>, remote: seq<Candidate>)
    ensures ObservedPath(path, remote) <==> path.Some? && DirectToPeer(path.value, remote)
  {
    hide PublicV4, PublicQuad;
    if path.Some? && path.value.remote.address.Some? {
      PublicMeansOutside(path.value.remote.address.value);
    }
  }

  /** What each part of the evidence is about, in both directions. */
  lemma EvidenceMeans(before: Option<Path>, after: Option<Path>, local: seq<Candidate>, remote: seq<Candidate>)
    ensures var e := PathEvidence(before, after, local, remote);
      && (e.observed <==>
            && before.Some? && DirectToPeer(before.value, remote)
            && after.Some? && DirectToPeer(after.value, remote))
      && (e.different <==> PubliclyApart(local, remote))
      && (e.stable <==> before.Some? && after.Some? && before.value.pairId == after.value.pairId != "")
      && (e.qualifies <==>
            && before.Some? && DirectToPeer(before.value, remote)
            && after.Some? && DirectToPeer(after.value, remote)
            && before.value.pairId == after.value.pairId != ""
            && PubliclyApart(local, remote))
  {
    hide PublicV4, PublicQuad, ObservedPath, DirectToPeer;
    ObservedMeansDirect(before, remote);
    ObservedMeansDirect(after, remote);
    DifferentMeansApart(local, remote);
    forall c | c in local + remote ensures PublicV4(c.address) <==> PublicQuad(c.address) {
      PublicMeansOutside(c.address);
    }
  }
}
