/**
 * `buildPayload` of the form script: a lead payload from the session's profile
 * and tracking values, with defaults for everything missing.
 */
module Payloads {
  import opened Base
  import opened Session
  import opened Dob

  /**
   * What the builder takes from outside the session: the IP lookup answer
   * ("" when the lookup fails or has no ip), a fresh UUID, origin + path of the
   * page, the current time as an opt-in date, and whether the lead POST for a
   * dedup key completes (any HTTP status) rather than failing in transport.
   */
  datatype Env = Env(fetchedIp: string, uuid: string, pageUrl: string, optinDate: string,
                     completes: string -> bool)

  /** The fields a caller passes to `buildPayload`; "" stands for absent or falsy. */
  datatype PayloadRequest = PayloadRequest(cid: string, sid: string, coregAnswer: string,
                                           dropdownAnswer: string, isShortform: bool)

  datatype Payload = Payload(
    cid: Option<string>, sid: Option<string>,
    /** gender, firstname, lastname, email, postcode, straat, huisnummer, woonplaats, telefoon. */
    profile: map<string, string>,
    dob: string, tId: string,
    /** aff_id, offer_id, sub_id, sub2. */
    tracking: map<string, string>,
    campaignUrl: string, ip: string, optinDate: string, isShortform: bool,
    coregAnswer: Option<string>, dropdownAnswer: Option<string>)

  const ProfileKeys: set<string> :=
    {"gender", "firstname", "lastname", "email", "postcode", "straat", "huisnummer", "woonplaats", "telefoon"}

  const TrackingKeys: set<string> := {"aff_id", "offer_id", "sub_id", "sub2"}

  /** `x || null`. */
  function OrNull(x: string): (r: Option<string>)
    ensures r.Some? <==> x != ""
    ensures r.Some? ==> r.value == x
  {
    if x == "" then None else Some(x)
  }

  /** The IP lookup's answer as `getIpOnce` keeps it: "0.0.0.0" when it gave none. */
  function IpOrFallback(fetched: string): string {
    if fetched == "" then "0.0.0.0" else fetched
  }

  /** An ip and the session after looking it up. */
  datatype IpLookup = IpLookup(ip: string, session: SessionState)

  /**
   * `getIpOnce`: the stored "user_ip" if there is one; otherwise the lookup's
   * answer (or "0.0.0.0"), which is stored for the rest of the session.
   */
  function GetIpOnce(s: SessionState, fetched: string): (r: IpLookup)
    ensures r.ip != ""
    ensures Get(s, "user_ip") != "" ==> r.ip == Get(s, "user_ip") && r.session == s
    ensures Get(s, "user_ip") == "" ==> r.session == Put(s, "user_ip", r.ip)
    ensures Get(r.session, "user_ip") == r.ip
  {
    var ip := Get(s, "user_ip");
    if ip != "" then IpLookup(ip, s)
    else IpLookup(IpOrFallback(fetched), Put(s, "user_ip", IpOrFallback(fetched)))
  }

  /** The lookup happens once: a second call returns the first answer, whatever the network says. */
  lemma IpLookedUpOnce(s: SessionState, first: string, second: string)
    ensures GetIpOnce(GetIpOnce(s, first).session, second) == GetIpOnce(GetIpOnce(s, first).session, first)
    ensures GetIpOnce(GetIpOnce(s, first).session, second).ip == GetIpOnce(s, first).ip
  {
  }

  /** A payload and the session after building it (only "user_ip" may have been stored). */
  datatype Built = Built(payload: Payload, session: SessionState)

  function BuildPayload(s: SessionState, req: PayloadRequest, env: Env): (b: Built)
    ensures b.payload.cid == OrNull(req.cid) && b.payload.sid == OrNull(req.sid)
    ensures b.payload.profile.Keys == ProfileKeys
    ensures forall f :: f in ProfileKeys ==> b.payload.profile[f] == Get(s, f)
    ensures b.payload.tracking.Keys == TrackingKeys
    ensures forall f :: f in TrackingKeys ==>
      b.payload.tracking[f] == (if Get(s, f) == "" then "unknown" else Get(s, f))
    ensures b.payload.tId == (if Get(s, "t_id") == "" then env.uuid else Get(s, "t_id"))
    ensures b.payload.dob == ParseDob(Get(s, "dob"))
    ensures b.payload.ip == GetIpOnce(s, env.fetchedIp).ip && b.session == GetIpOnce(s, env.fetchedIp).session
    ensures b.payload.isShortform == req.isShortform
    ensures b.payload.coregAnswer == OrNull(req.coregAnswer)
    ensures b.payload.dropdownAnswer == OrNull(req.dropdownAnswer)
  {
    var lookup := GetIpOnce(s, env.fetchedIp);
    var profile := map f | f in ProfileKeys :: Get(s, f);
    var tracking := map f | f in TrackingKeys :: if Get(s, f) == "" then "unknown" else Get(s, f);
    var tId := if Get(s, "t_id") == "" then env.uuid else Get(s, "t_id");
    var payload := Payload(
      OrNull(req.cid), OrNull(req.sid), profile, ParseDob(Get(s, "dob")), tId, tracking,
      env.pageUrl + "?status=online", lookup.ip, env.optinDate, req.isShortform,
      OrNull(req.coregAnswer), OrNull(req.dropdownAnswer));
    Built(payload, lookup.session)
  }

  /**
   * Nothing stored: every profile field is "", every tracking id "unknown",
   * no dob, a fresh t_id, and an ip even when the lookup failed.
   */
  lemma BuildPayloadDefaults(s: SessionState, req: PayloadRequest, env: Env)
    requires s.store == map[]
    ensures var p := BuildPayload(s, req, env).payload;
      && (forall f :: f in ProfileKeys ==> p.profile[f] == "")
      && (forall f :: f in TrackingKeys ==> p.tracking[f] == "unknown")
      && p.dob == "" && p.tId == env.uuid && p.ip == IpOrFallback(env.fetchedIp)
      && (req.cid == "" ==> p.cid == None)
  {
  }

  /** Building only ever stores "user_ip", and the ip stays the same for the next payload. */
  lemma BuildPayloadKeepsIp(s: SessionState, r1: PayloadRequest, r2: PayloadRequest, env1: Env, env2: Env)
    ensures var b1 := BuildPayload(s, r1, env1);
      && b1.session.(store := s.store) == s
      && (forall k :: k != "user_ip" ==> Get(b1.session, k) == Get(s, k))
      && BuildPayload(b1.session, r2, env2).payload.ip == b1.payload.ip
      && BuildPayload(b1.session, r2, env2).session == b1.session
  {
  }
}
