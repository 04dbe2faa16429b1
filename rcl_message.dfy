/**
 * A clearance request (RCL) as stored in the `rcl_messages` table: the
 * query scopes as predicates on one record and the datalink text the
 * record is shown as.
 */
module RclMessages {
  import opened Wrappers
  import opened Text

  /** One row of `rcl_messages`; nullable columns are options. */
  datatype RclMessage = RclMessage(
    callsign: string,
    destination: string,
    flightLevel: string,
    maxFlightLevel: Option<string>,
    mach: string,
    trackId: Option<int>,
    randomRouteing: Option<string>,
    entryFix: string,
    entryTime: string,
    tmi: Option<string>,
    clxMessageId: Option<int>)

  /** The columns of a track that the core reads. */
  datatype Track = Track(id: int, identifier: string, lastRouteing: string)

  /** `scopePending`: no clearance (CLX) has been issued for the request. */
  predicate Pending(m: RclMessage) {
    m.clxMessageId.None?
  }

  /** `scopeCleared`: a clearance has been issued. */
  predicate Cleared(m: RclMessage) {
    m.clxMessageId.Some?
  }

  /** `scopeRequestedTrack`: a request for track `t` with no random routeing. */
  predicate RequestedTrack(m: RclMessage, t: Track) {
    m.trackId == Some(t.id) && m.randomRouteing.None?
  }

  /** `scopeRequestedRandomRouteing`: a random routeing and no track. */
  predicate RequestedRandomRouteing(m: RclMessage) {
    m.randomRouteing.Some? && m.trackId.None?
  }

  /** Every record is either pending or cleared, never both. */
  lemma PendingXorCleared(m: RclMessage)
    ensures Pending(m) <==> !Cleared(m)
  {
  }

  /** No record is both a track request and a random-routeing request. */
  lemma TrackAndRandomRouteingDisjoint(m: RclMessage, t: Track)
    ensures !(RequestedTrack(m, t) && RequestedRandomRouteing(m))
  {
  }

  /** PHP string interpolation of a nullable column: null interpolates as "". */
  function Interpolate(v: Option<string>): string {
    if v.Some? then v.value else ""
  }

  /** `track` is what the record's `belongsTo` relation can resolve to: the track `trackId` names, or none. */
  predicate TrackOf(m: RclMessage, track: Option<Track>) {
    track.Some? ==> m.trackId == Some(track.value.id)
  }

  /**
   * `getDataLinkMessageAttribute`: the request as a datalink text. `track`
   * is the record's `track` relation (None when it resolves to no track).
   */
  function DataLinkMessage(m: RclMessage, track: Option<Track>): string
    requires TrackOf(m, track)
  {
    if track.Some? then
      m.callsign + " REQ CLRNCE " + m.destination + " VIA " + m.entryFix + "/" + m.entryTime
      + " TRACK " + track.value.identifier
      + " F" + m.flightLevel + " M" + m.mach + " MAX F" + Interpolate(m.maxFlightLevel) + " TMI " + Interpolate(m.tmi)
    else
      m.callsign + " REQ CLRNCE " + m.destination + " VIA " + m.entryFix + "/" + m.entryTime
      + " " + Interpolate(m.randomRouteing)
      + " F" + m.flightLevel + " M" + m.mach + " MAX F" + Interpolate(m.maxFlightLevel) + " TMI " + Interpolate(m.tmi)
  }

  /** The text both templates share before the routeing. */
  function MessagePrefix(m: RclMessage): string {
    m.callsign + " REQ CLRNCE " + m.destination + " VIA " + m.entryFix + "/" + m.entryTime
  }

  /** The text both templates share after the routeing. */
  function MessageSuffix(m: RclMessage): string {
    " F" + m.flightLevel + " M" + m.mach + " MAX F" + Interpolate(m.maxFlightLevel) + " TMI " + Interpolate(m.tmi)
  }

  /** The routeing part, with its leading space: `TRACK <ident>` with a track, the random routeing without one. */
  function RouteingText(m: RclMessage, track: Option<Track>): string {
    if track.Some? then " TRACK " + track.value.identifier else " " + Interpolate(m.randomRouteing)
  }

  lemma AppendAssoc(a: string, b: string, c: string)
    ensures a + (b + c) == (a + b) + c
  {
  }

  /** Appending the shared suffix is appending its pieces one by one. */
  lemma AppendSuffix(x: string, m: RclMessage)
    ensures x + MessageSuffix(m)
            == x + " F" + m.flightLevel + " M" + m.mach + " MAX F" + Interpolate(m.maxFlightLevel) + " TMI " + Interpolate(m.tmi)
  {
    var s1 := " F";
    var s2 := s1 + m.flightLevel;
    var s3 := s2 + " M";
    var s4 := s3 + m.mach;
    var s5 := s4 + " MAX F";
    var s6 := s5 + Interpolate(m.maxFlightLevel);
    var s7 := s6 + " TMI ";
    AppendAssoc(x, s7, Interpolate(m.tmi));
    AppendAssoc(x, s6, " TMI ");
    AppendAssoc(x, s5, Interpolate(m.maxFlightLevel));
    AppendAssoc(x, s4, " MAX F");
    AppendAssoc(x, s3, m.mach);
    AppendAssoc(x, s2, " M");
    AppendAssoc(x, s1, m.flightLevel);
  }

  /** Both templates are the shared prefix, the routeing part and the shared suffix. */
  lemma DataLinkMessageShape(m: RclMessage, track: Option<Track>)
    requires TrackOf(m, track)
    ensures DataLinkMessage(m, track) == MessagePrefix(m) + RouteingText(m, track) + MessageSuffix(m)
  {
    var pre := m.callsign + " REQ CLRNCE " + m.destination + " VIA " + m.entryFix + "/" + m.entryTime;
    if track.Some? {
      AppendAssoc(pre, " TRACK ", track.value.identifier);
      AppendSuffix(pre + " TRACK " + track.value.identifier, m);
    } else {
      AppendAssoc(pre, " ", Interpolate(m.randomRouteing));
      AppendSuffix(pre + " " + Interpolate(m.randomRouteing), m);
    }
  }

  /**
   * The branch depends on the track alone: with a track, the random routeing
   * does not appear; without one, the text is what the track template would
   * give if `TRACK <ident>` were the random routeing.
   */
  lemma DataLinkMessageBranch(m: RclMessage, t: Track, rr: Option<string>)
    requires m.trackId == Some(t.id)
    ensures DataLinkMessage(m.(randomRouteing := rr), Some(t)) == DataLinkMessage(m, Some(t))
    ensures DataLinkMessage(m.(randomRouteing := Some("TRACK " + t.identifier)), None) == DataLinkMessage(m, Some(t))
  {
  }

  /** A callsign without spaces is the first token of the datalink text. */
  lemma DataLinkMessageStartsWithCallsign(m: RclMessage, track: Option<Track>)
    requires TrackOf(m, track)
    requires m.callsign != [] && forall i :: 0 <= i < |m.callsign| ==> m.callsign[i] != ' '
    ensures FirstToken(DataLinkMessage(m, track)) == Some(m.callsign)
  {
    DataLinkMessageShape(m, track);
    var rest := " REQ CLRNCE " + m.destination + " VIA " + m.entryFix + "/" + m.entryTime
      + RouteingText(m, track) + MessageSuffix(m);
    assert DataLinkMessage(m, track) == m.callsign + rest;
    FirstTokenOfWord(m.callsign, rest);
  }
}
