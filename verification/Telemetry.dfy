/** Telemetry reports: what ingestion makes of a raw report, and the aggregate it is folded into. */
module Telemetry {
  import opened Common

  const MAX_SESSION_ID_LEN: nat := 128
  const MAX_COUNTER_VALUE: int := 1_000_000_000

  datatype Report = Report(
    schemaVersion: int, source: string, event: string, sessionID: string, pcRole: string,
    monitorIndex: int, generation: int, sequence: int,
    localCandidateType: string, remoteCandidateType: string, addressFamily: string, protocol: string,
    relayProtocol: string, pathClass: string,
    rttMs: Option<int>, jitterMs: Option<int>, lossPct: Option<real>, sendBitrateKbps: Option<int>,
    availableBitrateKbps: Option<int>, codec: string, width: Option<int>, height: Option<int>, fps: Option<int>,
    qp: Option<int>, frameDrops: Option<int>, ttffMs: Option<int>, freezeCount: Option<int>, freezeMsTotal: Option<int>)

  const UNKNOWN: string := "unknown"
  const SOURCES: set<string> := {"android", "host", UNKNOWN}
  const EVENTS: set<string> := {"snapshot", "path_transition", "ws_safe_mode_enter", "ws_safe_mode_exit", UNKNOWN}
  const PC_ROLES: set<string> := {"main", "video", UNKNOWN}
  const CANDIDATE_TYPES: set<string> := {"host", "srflx", "prflx", "relay", UNKNOWN}
  const FAMILIES: set<string> := {"ipv4", "ipv6", UNKNOWN}
  const PROTOCOLS: set<string> := {"udp", "tcp", UNKNOWN}
  const RELAY_PROTOCOLS: set<string> := {"udp", "tcp", "tls", "none", UNKNOWN}
  const PATH_CLASSES: set<string> := {"direct", "relay", UNKNOWN}
  const CODECS: set<string> := {"h264", "h265", "av1", UNKNOWN}

  // --- Strings ---

  predicate IsSpace(c: char) {
    c == ' ' || '\t' <= c <= '\r'
  }

  /** Tab, line feed, vertical tab, form feed, carriage return and space. */
  lemma IsSpaceIff(c: char)
    ensures IsSpace(c) <==> c in {9 as char, 10 as char, 11 as char, 12 as char, 13 as char, ' '}
  {
  }

  function Lower(c: char): char {
    if 'A' <= c <= 'Z' then c - 'A' + 'a' else c
  }

  function ToLower(s: string): string {
    seq(|s|, i requires 0 <= i < |s| => Lower(s[i]))
  }

  function TrimLeft(s: string): (r: string)
    ensures r == [] || !IsSpace(r[0])
    ensures |r| <= |s| && s[|s| - |r|..] == r && forall i :: 0 <= i < |s| - |r| ==> IsSpace(s[i])
  {
    if s != [] && IsSpace(s[0]) then TrimLeft(s[1..]) else s
  }

  function TrimRight(s: string): (r: string)
    ensures r == [] || !IsSpace(r[|r| - 1])
    ensures |r| <= |s| && s[..|r|] == r && forall i :: |r| <= i < |s| ==> IsSpace(s[i])
  {
    if s != [] && IsSpace(s[|s| - 1]) then TrimRight(s[..|s| - 1]) else s
  }

  function TrimSpace(s: string): string {
    TrimRight(TrimLeft(s))
  }

  /** No white space at either end. */
  predicate Trimmed(s: string) {
    s == [] || (!IsSpace(s[0]) && !IsSpace(s[|s| - 1]))
  }

  lemma TrimSpaceTrims(s: string)
    ensures Trimmed(TrimSpace(s)) && |TrimSpace(s)| <= |s|
    ensures Trimmed(s) ==> TrimSpace(s) == s
  {
  }

  predicate Canonical(s: string) {
    Trimmed(s) && forall i :: 0 <= i < |s| ==> !('A' <= s[i] <= 'Z')
  }

  // --- Ingestion ---

  function FoldEnum(v: string, whitelist: set<string>): (r: string)
    ensures r in whitelist || r == UNKNOWN
  {
    var c := ToLower(TrimSpace(v));
    if c in whitelist then c else UNKNOWN
  }

  lemma LowerKeepsSpaces(c: char)
    ensures IsSpace(Lower(c)) <==> IsSpace(c)
    ensures !('A' <= Lower(c) <= 'Z')
  {
  }

  lemma ToLowerCanonical(s: string)
    requires Trimmed(s)
    ensures Canonical(ToLower(s))
  {
    hide IsSpace, Lower;
    var r := ToLower(s);
    forall i | 0 <= i < |r| ensures !('A' <= r[i] <= 'Z') && (IsSpace(r[i]) <==> IsSpace(s[i])) {
      LowerKeepsSpaces(s[i]);
    }
  }

  lemma CanonicalIsLower(s: string)
    ensures Canonical(s) ==> ToLower(s) == s && Trimmed(s)
  {
    hide IsSpace;
  }

  lemma UnknownCanonical()
    ensures Canonical(UNKNOWN)
  {
  }

  /** A listed value in canonical spelling stays; anything else is folded to a canonical value. */
  lemma FoldEnumKeeps(v: string, whitelist: set<string>)
    ensures Canonical(FoldEnum(v, whitelist))
    ensures Canonical(v) && (v in whitelist || v == UNKNOWN) ==> FoldEnum(v, whitelist) == v
  {
    hide TrimSpace, Canonical;
    TrimSpaceTrims(v);
    ToLowerCanonical(TrimSpace(v));
    CanonicalIsLower(v);
    UnknownCanonical();
  }

  predicate AllSpace(s: string) {
    forall i :: 0 <= i < |s| ==> IsSpace(s[i])
  }

  /** v and w differ in the case of letters only. */
  predicate SameLetters(v: string, w: string) {
    |v| == |w| && forall i :: 0 <= i < |v| ==> Lower(v[i]) == Lower(w[i])
  }

  lemma {:induction false} TrimLeftPad(pad: string, s: string)
    requires AllSpace(pad)
    ensures TrimLeft(pad + s) == TrimLeft(s)
    decreases |pad|
  {
    hide IsSpace;
    if pad == "" {
      assert pad + s == s;
    } else {
      assert (pad + s)[1..] == pad[1..] + s;
      TrimLeftPad(pad[1..], s);
    }
  }

  lemma {:induction false} TrimRightPad(s: string, pad: string)
    requires AllSpace(pad)
    ensures TrimRight(s + pad) == TrimRight(s)
    decreases |pad|
  {
    hide IsSpace;
    if pad == "" {
      assert s + pad == s;
    } else {
      var shorter := pad[..|pad| - 1];
      assert (s + pad)[..|s + pad| - 1] == s + shorter;
      TrimRightPad(s, shorter);
    }
  }

  lemma {:induction false} TrimLeftKeepsPad(s: string, pad: string)
    requires AllSpace(pad)
    ensures TrimRight(TrimLeft(s + pad)) == TrimRight(TrimLeft(s))
    decreases |s|
  {
    hide IsSpace;
    if s == "" {
      assert s + pad == pad + "";
      TrimLeftPad(pad, "");
    } else if IsSpace(s[0]) {
      assert (s + pad)[1..] == s[1..] + pad;
      TrimLeftKeepsPad(s[1..], pad);
    } else {
      assert TrimLeft(s + pad) == s + pad && TrimLeft(s) == s;
      TrimRightPad(s, pad);
    }
  }

  lemma {:induction false} TrimLeftLower(s: string)
    ensures TrimLeft(ToLower(s)) == ToLower(TrimLeft(s))
    decreases |s|
  {
    hide IsSpace, Lower;
    if s != "" {
      LowerKeepsSpaces(s[0]);
      assert ToLower(s)[1..] == ToLower(s[1..]);
      TrimLeftLower(s[1..]);
    }
  }

  lemma {:induction false} TrimRightLower(s: string)
    ensures TrimRight(ToLower(s)) == ToLower(TrimRight(s))
    decreases |s|
  {
    hide IsSpace, Lower;
    if s != "" {
      LowerKeepsSpaces(s[|s| - 1]);
      assert ToLower(s)[..|s| - 1] == ToLower(s[..|s| - 1]);
      TrimRightLower(s[..|s| - 1]);
    }
  }

  /** Spelling does not matter: neither the case of any letter nor white space around the value. */
  lemma FoldEnumIgnoresSpelling(v: string, w: string, left: string, right: string, whitelist: set<string>)
    requires SameLetters(v, w) && AllSpace(left) && AllSpace(right)
    ensures FoldEnum(left + w + right, whitelist) == FoldEnum(v, whitelist)
  {
    hide TrimLeft, TrimRight, IsSpace, Lower;
    assert left + w + right == left + (w + right);
    TrimLeftPad(left, w + right);
    TrimLeftKeepsPad(w, right);
    TrimLeftLower(v);
    TrimLeftLower(w);
    TrimRightLower(TrimLeft(v));
    TrimRightLower(TrimLeft(w));
    assert ToLower(v) == ToLower(w);
  }

  function NormalizeSessionID(s: string): (r: string)
    ensures 0 < |r| <= MAX_SESSION_ID_LEN
  {
    var t := TrimSpace(s);
    if t == "" then UNKNOWN
    else if |t| > MAX_SESSION_ID_LEN then t[..MAX_SESSION_ID_LEN]
    else t
  }

  /** core is v without the white space at its ends. */
  ghost predicate IsCore(v: string, core: string) {
    exists i, j :: 0 <= i <= j <= |v| && core == v[i..j] && AllSpace(v[..i]) && AllSpace(v[j..]) && Trimmed(core)
  }

  /** r is the first 128 characters of raw without the white space around it, or unknown if that is nothing. */
  ghost predicate SessionIDFrom(raw: string, r: string) {
    exists core :: IsCore(raw, core)
      && r == if core == "" then "unknown" else if |core| <= 128 then core else core[..128]
  }

  lemma TrimLeftAt(v: string) returns (i: nat)
    ensures i <= |v| && TrimLeft(v) == v[i..] && AllSpace(v[..i])
  {
    hide IsSpace;
    i := |v| - |TrimLeft(v)|;
  }

  lemma TrimRightAt(v: string) returns (j: nat)
    ensures j <= |v| && TrimRight(v) == v[..j] && AllSpace(v[j..])
  {
    hide IsSpace;
    j := |TrimRight(v)|;
  }

  lemma TrimSpaceIsCore(v: string)
    ensures IsCore(v, TrimSpace(v))
  {
    TrimSpaceTrims(v);
    hide TrimLeft, TrimRight, IsSpace, AllSpace, Trimmed;
    var i := TrimLeftAt(v);
    var j := TrimRightAt(v[i..]);
    assert v[i..][..j] == v[i..i + j] && v[i..][j..] == v[i + j..];
  }

  lemma SessionIDIsFrom(raw: string)
    ensures SessionIDFrom(raw, NormalizeSessionID(raw))
  {
    hide TrimSpace, IsCore;
    TrimSpaceIsCore(raw);
  }

  /** A normal session id does not start with a space, and a trimmed id that fits is normal. */
  lemma SessionIDNormal(s: string)
    ensures !IsSpace(NormalizeSessionID(s)[0])
    ensures 0 < |s| <= MAX_SESSION_ID_LEN && Trimmed(s) ==> NormalizeSessionID(s) == s
  {
    hide TrimSpace, IsSpace;
    TrimSpaceTrims(s);
    UnknownCanonical();
    var t := TrimSpace(s);
    if |t| > MAX_SESSION_ID_LEN {
      assert t[..MAX_SESSION_ID_LEN][0] == t[0];
    }
  }

  /** Normalizing a session id again changes it iff it was cut off right after a space. */
  lemma SessionIDStableIff(s: string)
    ensures NormalizeSessionID(NormalizeSessionID(s)) == NormalizeSessionID(s)
       <==> !(|TrimSpace(s)| > MAX_SESSION_ID_LEN && IsSpace(TrimSpace(s)[MAX_SESSION_ID_LEN - 1]))
  {
    hide TrimSpace, IsSpace;
    var t, r := TrimSpace(s), NormalizeSessionID(s);
    TrimSpaceTrims(s);
    TrimSpaceTrims(r);
    UnknownCanonical();
    SessionIDNormal(s);
    SessionIDNormal(r);
    assert |UNKNOWN| == 7;
    if |t| > MAX_SESSION_ID_LEN {
      assert r[MAX_SESSION_ID_LEN - 1] == t[MAX_SESSION_ID_LEN - 1] && r[0] == t[0];
    }
  }

  lemma TrimPadded(s: string, pad: string)
    requires Trimmed(s) && AllSpace(pad)
    ensures TrimSpace(s + pad) == s
  {
    hide TrimLeft, TrimRight, IsSpace, Trimmed;
    TrimLeftKeepsPad(s, pad);
    TrimSpaceTrims(s);
  }

  /** Ids that change: 127 letters, a space and one more letter are cut off after the space, and the second
      time the space goes as well. */
  lemma UnstableSessionID(letters: string, last: char)
    requires |letters| == MAX_SESSION_ID_LEN - 1 && Trimmed(letters) && !IsSpace(last)
    ensures NormalizeSessionID(letters + [' ', last]) == letters + " "
    ensures NormalizeSessionID(letters + " ") == letters
  {
    hide TrimSpace;
    var s := letters + [' ', last];
    TrimSpaceTrims(s);
    TrimPadded(letters, " ");
    assert s[..MAX_SESSION_ID_LEN] == letters + " ";
  }

  function ClampIntValue(v: int, lo: int, hi: int): (r: int)
    requires lo <= hi
    ensures lo <= r <= hi
    ensures (lo <= v <= hi ==> r == v) && (r > v ==> r == lo) && (r < v ==> r == hi)
  {
    if v < lo then lo else if v > hi then hi else v
  }

  predicate InRange(p: Option<int>, lo: int, hi: int) {
    p.Some? ==> lo <= p.value <= hi
  }

  function ClampOrDropInt(p: Option<int>, lo: int, hi: int): (r: Option<int>)
    requires lo <= hi
    ensures r.Some? <==> p.Some? && p.value >= lo
    ensures r.Some? ==> lo <= r.value <= hi && (r == p || r.value == hi < p.value)
  {
    if p.None? || p.value < lo then None
    else if p.value > hi then Some(hi)
    else p
  }

  function ClampOrDropReal(p: Option<real>, lo: real, hi: real): (r: Option<real>)
    requires lo <= hi
    ensures r.Some? <==> p.Some? && p.value >= lo
    ensures r.Some? ==> lo <= r.value <= hi && (r == p || r.value == hi < p.value)
  {
    if p.None? || p.value < lo then None
    else if p.value > hi then Some(hi)
    else p
  }

  /** The report that normalize leaves. */
  function Normal(r: Report): Report {
    r.(source := FoldEnum(r.source, SOURCES),
       event := FoldEnum(r.event, EVENTS),
       sessionID := NormalizeSessionID(r.sessionID),
       pcRole := FoldEnum(r.pcRole, PC_ROLES),
       monitorIndex := ClampIntValue(r.monitorIndex, 0, 15),
       generation := ClampIntValue(r.generation, 0, MAX_COUNTER_VALUE),
       sequence := ClampIntValue(r.sequence, 0, MAX_COUNTER_VALUE),
       localCandidateType := FoldEnum(r.localCandidateType, CANDIDATE_TYPES),
       remoteCandidateType := FoldEnum(r.remoteCandidateType, CANDIDATE_TYPES),
       addressFamily := FoldEnum(r.addressFamily, FAMILIES),
       protocol := FoldEnum(r.protocol, PROTOCOLS),
       relayProtocol := FoldEnum(r.relayProtocol, RELAY_PROTOCOLS),
       pathClass := FoldEnum(r.pathClass, PATH_CLASSES),
       codec := FoldEnum(r.codec, CODECS),
       rttMs := ClampOrDropInt(r.rttMs, 0, 60_000),
       jitterMs := ClampOrDropInt(r.jitterMs, 0, 60_000),
       lossPct := ClampOrDropReal(r.lossPct, 0.0, 100.0),
       sendBitrateKbps := ClampOrDropInt(r.sendBitrateKbps, 0, 1_000_000),
       availableBitrateKbps := ClampOrDropInt(r.availableBitrateKbps, 0, 1_000_000),
       width := ClampOrDropInt(r.width, 0, 16_384),
       height := ClampOrDropInt(r.height, 0, 16_384),
       fps := ClampOrDropInt(r.fps, 0, 1_000),
       qp := ClampOrDropInt(r.qp, 0, 63),
       frameDrops := ClampOrDropInt(r.frameDrops, 0, 10_000_000),
       ttffMs := ClampOrDropInt(r.ttffMs, 0, 600_000),
       freezeCount := ClampOrDropInt(r.freezeCount, 0, 10_000_000),
       freezeMsTotal := ClampOrDropInt(r.freezeMsTotal, 0, 3_600_000))
  }

  predicate EnumOk(v: string, whitelist: set<string>) {
    v in whitelist && Canonical(v)
  }

  predicate EnumsOk(r: Report) {
    && EnumOk(r.source, SOURCES) && EnumOk(r.event, EVENTS) && EnumOk(r.pcRole, PC_ROLES)
    && EnumOk(r.localCandidateType, CANDIDATE_TYPES) && EnumOk(r.remoteCandidateType, CANDIDATE_TYPES)
    && EnumOk(r.addressFamily, FAMILIES) && EnumOk(r.protocol, PROTOCOLS)
    && EnumOk(r.relayProtocol, RELAY_PROTOCOLS) && EnumOk(r.pathClass, PATH_CLASSES) && EnumOk(r.codec, CODECS)
  }

  predicate NumbersOk(r: Report) {
    && 0 <= r.monitorIndex <= 15
    && 0 <= r.generation <= MAX_COUNTER_VALUE && 0 <= r.sequence <= MAX_COUNTER_VALUE
    && InRange(r.rttMs, 0, 60_000) && InRange(r.jitterMs, 0, 60_000)
    && (r.lossPct.Some? ==> 0.0 <= r.lossPct.value <= 100.0)
    && InRange(r.sendBitrateKbps, 0, 1_000_000) && InRange(r.availableBitrateKbps, 0, 1_000_000)
    && InRange(r.width, 0, 16_384) && InRange(r.height, 0, 16_384)
    && InRange(r.fps, 0, 1_000) && InRange(r.qp, 0, 63) && InRange(r.frameDrops, 0, 10_000_000)
    && InRange(r.ttffMs, 0, 600_000) && InRange(r.freezeCount, 0, 10_000_000) && InRange(r.freezeMsTotal, 0, 3_600_000)
  }

  /** What the aggregate may rely on. */
  predicate Clean(r: Report) {
    EnumsOk(r) && NumbersOk(r) && 0 < |r.sessionID| <= MAX_SESSION_ID_LEN
  }

  lemma FoldsToListed(v: string, whitelist: set<string>)
    requires UNKNOWN in whitelist
    ensures EnumOk(FoldEnum(v, whitelist), whitelist)
    ensures EnumOk(v, whitelist) ==> FoldEnum(v, whitelist) == v
  {
    FoldEnumKeeps(v, whitelist);
  }

  lemma FoldsEnums(r: Report)
    ensures EnumsOk(Normal(r))
    ensures EnumsOk(r) ==>
      var n := Normal(r);
      && n.source == r.source && n.event == r.event && n.pcRole == r.pcRole
      && n.localCandidateType == r.localCandidateType && n.remoteCandidateType == r.remoteCandidateType
      && n.addressFamily == r.addressFamily && n.protocol == r.protocol && n.relayProtocol == r.relayProtocol
      && n.pathClass == r.pathClass && n.codec == r.codec
  {
    hide FoldEnum, EnumOk;
    FoldsToListed(r.source, SOURCES);
    FoldsToListed(r.event, EVENTS);
    FoldsToListed(r.pcRole, PC_ROLES);
    FoldsToListed(r.localCandidateType, CANDIDATE_TYPES);
    FoldsToListed(r.remoteCandidateType, CANDIDATE_TYPES);
    FoldsToListed(r.addressFamily, FAMILIES);
    FoldsToListed(r.protocol, PROTOCOLS);
    FoldsToListed(r.relayProtocol, RELAY_PROTOCOLS);
    FoldsToListed(r.pathClass, PATH_CLASSES);
    FoldsToListed(r.codec, CODECS);
  }

  /** normalize makes any report clean, and changes nothing but the session id in one that is. */
  lemma NormalIsClean(r: Report)
    ensures Clean(Normal(r))
    ensures Clean(r) ==> Normal(r) == r.(sessionID := Normal(r).sessionID)
    ensures Clean(r) && Trimmed(r.sessionID) ==> Normal(r) == r
  {
    hide FoldEnum, EnumOk, NormalizeSessionID;
    FoldsEnums(r);
    SessionIDNormal(r.sessionID);
  }

  /** Applied twice, normalize may change the session id only: truncation can leave space at its end. */
  lemma NormalTwice(r: Report)
    ensures Normal(Normal(r)).(sessionID := Normal(r).sessionID) == Normal(r)
  {
    hide Normal, Clean;
    NormalIsClean(r);
    NormalIsClean(Normal(r));
  }

  /** r is how v is listed, if it is, and unknown otherwise. */
  predicate Listed(v: string, r: string, whitelist: set<string>) {
    r in whitelist && (r == ToLower(TrimSpace(v)) || (r == UNKNOWN && ToLower(TrimSpace(v)) !in whitelist))
  }

  /** q keeps what p has in range, is capped above it, and absent below it. */
  predicate Capped(p: Option<int>, q: Option<int>, lo: int, hi: int) {
    && (q.Some? <==> p.Some? && lo <= p.value)
    && (q.Some? ==> q.value <= hi && (q.value == p.value || q.value == hi < p.value))
  }

  predicate EnumsListed(raw: Report, r: Report) {
    && Listed(raw.source, r.source, SOURCES) && Listed(raw.event, r.event, EVENTS)
    && Listed(raw.pcRole, r.pcRole, PC_ROLES)
    && Listed(raw.localCandidateType, r.localCandidateType, CANDIDATE_TYPES)
    && Listed(raw.remoteCandidateType, r.remoteCandidateType, CANDIDATE_TYPES)
    && Listed(raw.addressFamily, r.addressFamily, FAMILIES) && Listed(raw.protocol, r.protocol, PROTOCOLS)
    && Listed(raw.relayProtocol, r.relayProtocol, RELAY_PROTOCOLS)
    && Listed(raw.pathClass, r.pathClass, PATH_CLASSES) && Listed(raw.codec, r.codec, CODECS)
  }

  /** r is v where v is in range, and otherwise the bound that is nearer to v. */
  predicate Nearest(v: int, r: int, lo: int, hi: int) {
    lo <= r <= hi && (r == v || v < lo == r || r == hi < v)
  }

  predicate NumbersCapped(raw: Report, r: Report) {
    && Nearest(raw.monitorIndex, r.monitorIndex, 0, 15)
    && Nearest(raw.generation, r.generation, 0, MAX_COUNTER_VALUE)
    && Nearest(raw.sequence, r.sequence, 0, MAX_COUNTER_VALUE)
    && (r.lossPct.Some? <==> raw.lossPct.Some? && 0.0 <= raw.lossPct.value)
    && (r.lossPct.Some? ==> r.lossPct == raw.lossPct || r.lossPct.value == 100.0 < raw.lossPct.value)
    && Capped(raw.rttMs, r.rttMs, 0, 60_000) && Capped(raw.jitterMs, r.jitterMs, 0, 60_000)
    && Capped(raw.sendBitrateKbps, r.sendBitrateKbps, 0, 1_000_000)
    && Capped(raw.availableBitrateKbps, r.availableBitrateKbps, 0, 1_000_000)
    && Capped(raw.width, r.width, 0, 16_384) && Capped(raw.height, r.height, 0, 16_384)
    && Capped(raw.fps, r.fps, 0, 1_000) && Capped(raw.qp, r.qp, 0, 63)
    && Capped(raw.frameDrops, r.frameDrops, 0, 10_000_000) && Capped(raw.ttffMs, r.ttffMs, 0, 600_000)
    && Capped(raw.freezeCount, r.freezeCount, 0, 10_000_000)
    && Capped(raw.freezeMsTotal, r.freezeMsTotal, 0, 3_600_000)
  }

  /** Each enum field of raw that is listed in any spelling is recognized, and each number is kept as far as
      its range allows. */
  lemma NormalKeepsMeaning(raw: Report)
    ensures EnumsListed(raw, Normal(raw)) && NumbersCapped(raw, Normal(raw))
  {
  }

  /** The result is clean; a clean report comes back as it was, but for a session id that needs trimming;
      and in any report, every field that has a meaning keeps it. */
  method Normalize(raw: Report) returns (r: Report)
    ensures Clean(r)
    ensures Clean(raw) ==> r == raw.(sessionID := r.sessionID)
    ensures Clean(raw) && Trimmed(raw.sessionID) ==> r == raw
    ensures EnumsListed(raw, r) && NumbersCapped(raw, r)
    ensures SessionIDFrom(raw.sessionID, r.sessionID) && r.schemaVersion == raw.schemaVersion
    ensures r == Normal(raw)
  {
    SessionIDIsFrom(raw.sessionID);
    hide SessionIDFrom, NormalizeSessionID;
    hide FoldEnum, Clean, EnumsListed, NumbersCapped;
    NormalIsClean(raw);
    NormalKeepsMeaning(raw);
    r := raw;
    r := r.(source := FoldEnum(r.source, SOURCES));
    r := r.(event := FoldEnum(r.event, EVENTS));
    r := r.(sessionID := NormalizeSessionID(r.sessionID));
    r := r.(pcRole := FoldEnum(r.pcRole, PC_ROLES));
    r := r.(monitorIndex := ClampIntValue(r.monitorIndex, 0, 15));
    r := r.(generation := ClampIntValue(r.generation, 0, MAX_COUNTER_VALUE));
    r := r.(sequence := ClampIntValue(r.sequence, 0, MAX_COUNTER_VALUE));
    r := r.(localCandidateType := FoldEnum(r.localCandidateType, CANDIDATE_TYPES));
    r := r.(remoteCandidateType := FoldEnum(r.remoteCandidateType, CANDIDATE_TYPES));
    r := r.(addressFamily := FoldEnum(r.addressFamily, FAMILIES));
    r := r.(protocol := FoldEnum(r.protocol, PROTOCOLS));
    r := r.(relayProtocol := FoldEnum(r.relayProtocol, RELAY_PROTOCOLS));
    r := r.(pathClass := FoldEnum(r.pathClass, PATH_CLASSES));
    r := r.(codec := FoldEnum(r.codec, CODECS));
    r := r.(rttMs := ClampOrDropInt(r.rttMs, 0, 60_000));
    r := r.(jitterMs := ClampOrDropInt(r.jitterMs, 0, 60_000));
    r := r.(lossPct := ClampOrDropReal(r.lossPct, 0.0, 100.0));
    r := r.(sendBitrateKbps := ClampOrDropInt(r.sendBitrateKbps, 0, 1_000_000));
    r := r.(availableBitrateKbps := ClampOrDropInt(r.availableBitrateKbps, 0, 1_000_000));
    r := r.(width := ClampOrDropInt(r.width, 0, 16_384));
    r := r.(height := ClampOrDropInt(r.height, 0, 16_384));
    r := r.(fps := ClampOrDropInt(r.fps, 0, 1_000));
    r := r.(qp := ClampOrDropInt(r.qp, 0, 63));
    r := r.(frameDrops := ClampOrDropInt(r.frameDrops, 0, 10_000_000));
    r := r.(ttffMs := ClampOrDropInt(r.ttffMs, 0, 600_000));
    r := r.(freezeCount := ClampOrDropInt(r.freezeCount, 0, 10_000_000));
    r := r.(freezeMsTotal := ClampOrDropInt(r.freezeMsTotal, 0, 3_600_000));
  }

  // --- The aggregate ---

  datatype Field = PathClass | Family | Protocol | RelayProtocol | PCRole | Source | Codec | Event

  function Pick(r: Report, f: Field): string {
    match f
    case PathClass => r.pathClass
    case Family => r.addressFamily
    case Protocol => r.protocol
    case RelayProtocol => r.relayProtocol
    case PCRole => r.pcRole
    case Source => r.source
    case Codec => r.codec
    case Event => r.event
  }

  function Whitelist(f: Field): set<string> {
    match f
    case PathClass => PATH_CLASSES
    case Family => FAMILIES
    case Protocol => PROTOCOLS
    case RelayProtocol => RELAY_PROTOCOLS
    case PCRole => PC_ROLES
    case Source => SOURCES
    case Codec => CODECS
    case Event => EVENTS
  }

  /** A recorded report and when it was received. */
  datatype Entry = Entry(report: Report, receivedAt: int)

  type Counts = map<string, nat>

  function Occurrences(history: seq<Entry>, f: Field, key: string): nat {
    if history == [] then 0
    else Occurrences(history[..|history| - 1], f, key) + if Pick(history[|history| - 1].report, f) == key then 1 else 0
  }

  /** m counts the values of field f in history, and has no other keys. */
  ghost predicate Counted(m: Counts, history: seq<Entry>, f: Field) {
    && (forall k :: k in m ==> m[k] == Occurrences(history, f, k) > 0)
    && (forall k :: k !in m ==> Occurrences(history, f, k) == 0)
  }

  lemma NothingCounted()
    ensures forall f :: Counted(map[], [], f)
  {
  }

  function Bump(m: Counts, key: string): Counts {
    m[key := (if key in m then m[key] else 0) + 1]
  }

  lemma OccurrencesSnoc(history: seq<Entry>, e: Entry, f: Field, key: string)
    ensures Occurrences(history + [e], f, key)
            == Occurrences(history, f, key) + if Pick(e.report, f) == key then 1 else 0
  {
    assert (history + [e])[..|history|] == history;
  }

  lemma BumpCounts(m: Counts, history: seq<Entry>, e: Entry, f: Field)
    requires Counted(m, history, f)
    ensures Counted(Bump(m, Pick(e.report, f)), history + [e], f)
  {
    hide Occurrences, Pick;
    forall k
      ensures Occurrences(history + [e], f, k)
              == Occurrences(history, f, k) + if Pick(e.report, f) == k then 1 else 0
    {
      OccurrencesSnoc(history, e, f, k);
    }
  }

  /** The sum of all counters. */
  ghost function Sum(m: Counts): nat
    decreases |m|
  {
    if m == map[] then 0
    else
      var k :| k in m;
      Smaller(m, k);
      m[k] + Sum(m - {k})
  }

  lemma Smaller(m: Counts, k: string)
    requires k in m
    ensures |m - {k}| < |m|
  {
    assert (m - {k}).Keys == m.Keys - {k};
    assert |m.Keys| == |m| && |(m - {k}).Keys| == |m - {k}|;
  }

  lemma {:induction false} SumWithout(m: Counts, k: string)
    requires k in m
    ensures Sum(m) == m[k] + Sum(m - {k})
    decreases |m|
  {
    var j :| j in m && Sum(m) == m[j] + Sum(m - {j});
    if j != k {
      Smaller(m, j);
      Smaller(m, k);
      SumWithout(m - {j}, k);
      SumWithout(m - {k}, j);
      assert m - {j} - {k} == m - {k} - {j};
    }
  }

  lemma SumBump(m: Counts, key: string)
    ensures Sum(Bump(m, key)) == Sum(m) + 1
  {
    var b := Bump(m, key);
    SumWithout(b, key);
    assert b - {key} == m - {key};
    if key in m {
      SumWithout(m, key);
    } else {
      assert m - {key} == m;
    }
  }

  lemma {:induction false} SumsToTotal(m: Counts, history: seq<Entry>, f: Field)
    requires Counted(m, history, f)
    ensures Sum(m) == |history|
    decreases |history|
  {
    if history == [] {
      assert m == map[];
    } else {
      var rest, e := history[..|history| - 1], history[|history| - 1];
      var before := CountsOf(rest, f);
      SumsToTotal(before, rest, f);
      BumpCounts(before, rest, e, f);
      SumBump(before, Pick(e.report, f));
      assert rest + [e] == history;
      CountedUnique(m, Bump(before, Pick(e.report, f)), history, f);
    }
  }

  lemma CountedUnique(m: Counts, n: Counts, history: seq<Entry>, f: Field)
    requires Counted(m, history, f) && Counted(n, history, f)
    ensures m == n
  {
    assert forall k :: k in m <==> k in n;
  }

  function CountsOf(history: seq<Entry>, f: Field): (m: Counts)
    ensures Counted(m, history, f)
  {
    if history == [] then map[]
    else
      var rest, e := history[..|history| - 1], history[|history| - 1];
      BumpCounts(CountsOf(rest, f), rest, e, f);
      assert rest + [e] == history;
      Bump(CountsOf(rest, f), Pick(e.report, f))
  }

  lemma PickListed(r: Report, f: Field)
    requires Clean(r)
    ensures Pick(r, f) in Whitelist(f)
  {
    hide Canonical, InRange;
  }

  /** The counters stay within the whitelists, because normalize comes before record. */
  lemma KeysListed(m: Counts, history: seq<Entry>, f: Field)
    requires Counted(m, history, f) && forall e :: e in history ==> Clean(e.report)
    ensures m.Keys <= Whitelist(f)
  {
    hide Clean, Whitelist, Pick, Occurrences;
    forall k | k in m ensures k in Whitelist(f) {
      Occurs(history, f, k);
      forall e | e in history ensures Pick(e.report, f) in Whitelist(f) {
        PickListed(e.report, f);
      }
    }
  }

  lemma {:induction false} Occurs(history: seq<Entry>, f: Field, k: string)
    requires Occurrences(history, f, k) > 0
    ensures exists e :: e in history && Pick(e.report, f) == k
  {
    var last := history[|history| - 1];
    if Pick(last.report, f) != k {
      Occurs(history[..|history| - 1], f, k);
      var e :| e in history[..|history| - 1] && Pick(e.report, f) == k;
      assert e in history;
    }
  }

  function Reverse(s: seq<Entry>): seq<Entry> {
    if s == [] then [] else [s[|s| - 1]] + Reverse(s[..|s| - 1])
  }

  lemma {:induction false} ReverseAt(s: seq<Entry>, i: nat)
    requires i < |s|
    ensures |Reverse(s)| == |s| && Reverse(s)[|s| - 1 - i] == s[i]
  {
    if i == |s| - 1 {
      if |s| > 1 {
        ReverseAt(s[..|s| - 1], 0);
      }
    } else {
      ReverseAt(s[..|s| - 1], i);
    }
  }

  /** The last min(|history|, n) entries. */
  function LastOf(history: seq<Entry>, n: nat): seq<Entry> {
    if |history| <= n then history else history[|history| - n..]
  }

  /** recent are the last n entries of history, or all if there are fewer, the newest first. */
  ghost predicate NewestFirst(recent: seq<Entry>, history: seq<Entry>, n: nat) {
    && |recent| == (if |history| < n then |history| else n)
    && forall i :: 0 <= i < |recent| ==> recent[i] == history[|history| - 1 - i]
  }

  lemma ReversedLast(history: seq<Entry>, n: nat)
    ensures NewestFirst(Reverse(LastOf(history, n)), history, n)
  {
    var last := LastOf(history, n);
    if last == [] {
      assert Reverse(last) == [];
    } else {
      ReverseAt(last, 0);
    }
    forall i | 0 <= i < |last| ensures Reverse(last)[i] == history[|history| - 1 - i] {
      ReverseAt(last, |last| - 1 - i);
      assert Reverse(last)[|last| - 1 - (|last| - 1 - i)] == last[|last| - 1 - i];
    }
  }

  lemma LastOfSnoc(history: seq<Entry>, e: Entry, n: nat)
    requires n > 0
    ensures LastOf(history + [e], n)
            == if |history| < n then LastOf(history, n) + [e] else LastOf(history, n)[1..] + [e]
  {
  }

  lemma NextSlot(next: nat, n: nat)
    requires next < n
    ensures (next + 1) % n == if next + 1 == n then 0 else next + 1
  {
  }

  lemma AroundWithoutFirst(ring: seq<Entry>, next: nat)
    requires next < |ring|
    ensures (ring[next..] + ring[..next])[1..] == ring[next + 1..] + ring[..next]
  {
  }

  /** A full ring, read from next around, loses its oldest entry to the overwrite. */
  lemma Rotate(ring: seq<Entry>, next: nat, e: Entry)
    requires next < |ring|
    ensures var after, k := ring[next := e], (next + 1) % |ring|;
            after[k..] + after[..k] == (ring[next..] + ring[..next])[1..] + [e]
  {
    NextSlot(next, |ring|);
    AroundWithoutFirst(ring, next);
    var after := ring[next := e];
    var k := if next + 1 == |ring| then 0 else next + 1;
    assert after[next + 1..] == ring[next + 1..] && after[..next + 1] == ring[..next] + [e];
    if k == 0 {
      assert after == after[..next + 1];
      assert ring[next + 1..] == [];
    }
    assert (ring[next + 1..] + ring[..next]) + [e] == ring[next + 1..] + (ring[..next] + [e]);
  }

  datatype StatsData = StatsData(total: nat, pathClass: Counts, family: Counts, protocol: Counts, relayProtocol: Counts,
                                 pcRole: Counts, source: Counts, codec: Counts, event: Counts, recent: seq<Entry>)

  function CountsIn(d: StatsData, f: Field): Counts {
    match f
    case PathClass => d.pathClass
    case Family => d.family
    case Protocol => d.protocol
    case RelayProtocol => d.relayProtocol
    case PCRole => d.pcRole
    case Source => d.source
    case Codec => d.codec
    case Event => d.event
  }

  lemma StatsFacts(data: StatsData, history: seq<Entry>)
    requires data.total == |history|
    requires Counted(data.pathClass, history, PathClass) && Counted(data.family, history, Family)
    requires Counted(data.protocol, history, Protocol) && Counted(data.relayProtocol, history, RelayProtocol)
    requires Counted(data.pcRole, history, PCRole) && Counted(data.source, history, Source)
    requires Counted(data.codec, history, Codec) && Counted(data.event, history, Event)
    ensures forall f :: Counted(CountsIn(data, f), history, f)
    ensures forall f :: Sum(CountsIn(data, f)) == data.total
    ensures (forall e :: e in history ==> Clean(e.report)) ==> forall f :: CountsIn(data, f).Keys <= Whitelist(f)
  {
    hide Counted, Clean, Sum, Whitelist;
    forall f ensures Counted(CountsIn(data, f), history, f) && Sum(CountsIn(data, f)) == data.total {
      SumsToTotal(CountsIn(data, f), history, f);
    }
    if forall e :: e in history ==> Clean(e.report) {
      forall f ensures CountsIn(data, f).Keys <= Whitelist(f) {
        KeysListed(CountsIn(data, f), history, f);
      }
    }
  }

  const RING_CAPACITY: nat := 500

  /** m says how often each value occurs among values. */
  ghost predicate Tally(m: Counts, values: seq<string>) {
    (forall k :: k in m <==> k in values) && forall k :: k in m ==> m[k] == multiset(values)[k]
  }

  ghost function Column(h: seq<Entry>, f: Field): seq<string> {
    seq(|h|, i requires 0 <= i < |h| => Pick(h[i].report, f))
  }

  /** Each counter map is a tally of its own field of the reports. */
  ghost predicate Tallies(d: StatsData, h: seq<Entry>) {
    && Tally(d.pathClass, seq(|h|, i requires 0 <= i < |h| => h[i].report.pathClass))
    && Tally(d.family, seq(|h|, i requires 0 <= i < |h| => h[i].report.addressFamily))
    && Tally(d.protocol, seq(|h|, i requires 0 <= i < |h| => h[i].report.protocol))
    && Tally(d.relayProtocol, seq(|h|, i requires 0 <= i < |h| => h[i].report.relayProtocol))
    && Tally(d.pcRole, seq(|h|, i requires 0 <= i < |h| => h[i].report.pcRole))
    && Tally(d.source, seq(|h|, i requires 0 <= i < |h| => h[i].report.source))
    && Tally(d.codec, seq(|h|, i requires 0 <= i < |h| => h[i].report.codec))
    && Tally(d.event, seq(|h|, i requires 0 <= i < |h| => h[i].report.event))
  }

  lemma {:induction false} OccurrencesIn(h: seq<Entry>, f: Field, key: string)
    ensures Occurrences(h, f, key) == multiset(Column(h, f))[key]
    decreases |h|
  {
    hide Pick;
    if h != [] {
      var rest := h[..|h| - 1];
      OccurrencesIn(rest, f, key);
      assert Column(h, f) == Column(rest, f) + [Pick(h[|h| - 1].report, f)];
    }
  }

  lemma CountedTally(h: seq<Entry>, f: Field, m: Counts)
    requires Counted(m, h, f)
    ensures Tally(m, Column(h, f))
  {
    hide Occurrences, Column;
    forall k ensures Occurrences(h, f, k) == multiset(Column(h, f))[k] {
      OccurrencesIn(h, f, k);
    }
    forall k ensures k in m <==> k in Column(h, f) {
      assert k in Column(h, f) <==> k in multiset(Column(h, f));
    }
  }

  lemma CountsAreTallies(d: StatsData, h: seq<Entry>)
    requires forall f :: Counted(CountsIn(d, f), h, f)
    ensures Tallies(d, h)
  {
    hide Counted, Tally;
    CountedTally(h, PathClass, CountsIn(d, PathClass));
    assert seq(|h|, i requires 0 <= i < |h| => h[i].report.pathClass) == Column(h, PathClass);
    CountedTally(h, Family, CountsIn(d, Family));
    assert seq(|h|, i requires 0 <= i < |h| => h[i].report.addressFamily) == Column(h, Family);
    CountedTally(h, Protocol, CountsIn(d, Protocol));
    assert seq(|h|, i requires 0 <= i < |h| => h[i].report.protocol) == Column(h, Protocol);
    CountedTally(h, RelayProtocol, CountsIn(d, RelayProtocol));
    assert seq(|h|, i requires 0 <= i < |h| => h[i].report.relayProtocol) == Column(h, RelayProtocol);
    CountedTally(h, PCRole, CountsIn(d, PCRole));
    assert seq(|h|, i requires 0 <= i < |h| => h[i].report.pcRole) == Column(h, PCRole);
    CountedTally(h, Source, CountsIn(d, Source));
    assert seq(|h|, i requires 0 <= i < |h| => h[i].report.source) == Column(h, Source);
    CountedTally(h, Codec, CountsIn(d, Codec));
    assert seq(|h|, i requires 0 <= i < |h| => h[i].report.codec) == Column(h, Codec);
    CountedTally(h, Event, CountsIn(d, Event));
    assert seq(|h|, i requires 0 <= i < |h| => h[i].report.event) == Column(h, Event);
  }

  class Aggregator {
    var total: nat
    var pathClass: Counts
    var family: Counts
    var protocol: Counts
    var relayProtocol: Counts
    var pcRole: Counts
    var source: Counts
    var codec: Counts
    var event: Counts

    /** ring[..ringLen] is the slice, of capacity ring.Length; ringNext is used once it is full. */
    const ring: array<Entry>
    var ringLen: nat
    var ringNext: nat

    /** Every report ever recorded. */
    ghost var history: seq<Entry>

    ghost predicate Valid()
      reads this, ring
    {
      && total == |history|
      && CountersValid()
      && RingShape()
      && Chronological() == LastOf(history, ring.Length)
    }

    ghost predicate CountersValid()
      reads this
    {
      && Counted(pathClass, history, PathClass) && Counted(family, history, Family)
      && Counted(protocol, history, Protocol) && Counted(relayProtocol, history, RelayProtocol)
      && Counted(pcRole, history, PCRole) && Counted(source, history, Source)
      && Counted(codec, history, Codec) && Counted(event, history, Event)
    }

    ghost predicate RingShape()
      reads this
    {
      && 0 < ring.Length
      && ringLen <= ring.Length && (ringLen < ring.Length ==> ringNext == 0) && ringNext < ring.Length
      && ringLen == (if |history| < ring.Length then |history| else ring.Length)
    }

    /** The entries in the ring, oldest first. */
    ghost function Chronological(): seq<Entry>
      requires RingShape()
      reads this, ring
    {
      if ringLen < ring.Length then ring[..ringLen] else ring[ringNext..] + ring[..ringNext]
    }

    /** newAggregator, for a ring of any capacity; the source uses RING_CAPACITY. */
    constructor (capacity: nat)
      requires capacity > 0
      ensures Valid() && history == [] && ring.Length == capacity && fresh(ring)
    {
      total := 0;
      pathClass, family, protocol, relayProtocol := map[], map[], map[], map[];
      pcRole, source, codec, event := map[], map[], map[], map[];
      ring := new Entry[capacity];
      ringLen, ringNext := 0, 0;
      history := [];
      new;
      hide Counted;
      NothingCounted();
    }

    method Record(r: Report, now: int)
      requires Valid()
      modifies this, ring
      ensures Valid() && history == old(history) + [Entry(r, now)]
    {
      hide Counted, LastOf;
      ghost var before := history;
      var entry := Entry(r, now);
      Count(entry);
      Push(entry, before);
    }

    /** The counters of record. */
    method Count(e: Entry)
      requires CountersValid() && total == |history|
      modifies this`total, this`pathClass, this`family, this`protocol, this`relayProtocol, this`pcRole, this`source,
               this`codec, this`event, this`history
      ensures history == old(history) + [e] && total == |history| && CountersValid()
    {
      hide Counted;
      total := total + 1;
      CountPath(e);
      CountOrigin(e);
      history := history + [e];
    }

    method CountPath(e: Entry)
      requires Counted(pathClass, history, PathClass) && Counted(family, history, Family)
      requires Counted(protocol, history, Protocol) && Counted(relayProtocol, history, RelayProtocol)
      modifies this`pathClass, this`family, this`protocol, this`relayProtocol
      ensures Counted(pathClass, history + [e], PathClass) && Counted(family, history + [e], Family)
      ensures Counted(protocol, history + [e], Protocol) && Counted(relayProtocol, history + [e], RelayProtocol)
    {
      hide Counted, Bump;
      BumpCounts(pathClass, history, e, PathClass);
      BumpCounts(family, history, e, Family);
      BumpCounts(protocol, history, e, Protocol);
      BumpCounts(relayProtocol, history, e, RelayProtocol);
      pathClass := Bump(pathClass, e.report.pathClass);
      family := Bump(family, e.report.addressFamily);
      protocol := Bump(protocol, e.report.protocol);
      relayProtocol := Bump(relayProtocol, e.report.relayProtocol);
    }

    method CountOrigin(e: Entry)
      requires Counted(pcRole, history, PCRole) && Counted(source, history, Source)
      requires Counted(codec, history, Codec) && Counted(event, history, Event)
      modifies this`pcRole, this`source, this`codec, this`event
      ensures Counted(pcRole, history + [e], PCRole) && Counted(source, history + [e], Source)
      ensures Counted(codec, history + [e], Codec) && Counted(event, history + [e], Event)
    {
      hide Counted, Bump;
      BumpCounts(pcRole, history, e, PCRole);
      BumpCounts(source, history, e, Source);
      BumpCounts(codec, history, e, Codec);
      BumpCounts(event, history, e, Event);
      pcRole := Bump(pcRole, e.report.pcRole);
      source := Bump(source, e.report.source);
      codec := Bump(codec, e.report.codec);
      event := Bump(event, e.report.event);
    }

    /** The ring of record: append, or overwrite the oldest slot. */
    method Push(entry: Entry, ghost before: seq<Entry>)
      requires history == before + [entry] && 0 < ring.Length
      requires ringLen <= ring.Length && (ringLen < ring.Length ==> ringNext == 0) && ringNext < ring.Length
      requires ringLen == (if |before| < ring.Length then |before| else ring.Length)
      requires LastOf(before, ring.Length)
               == if ringLen < ring.Length then ring[..ringLen] else ring[ringNext..] + ring[..ringNext]
      modifies this`ringLen, this`ringNext, ring
      ensures RingShape() && Chronological() == LastOf(history, ring.Length)
    {
      hide LastOf;
      LastOfSnoc(before, entry, ring.Length);
      if ringLen < ring.Length {
        Append(entry);
      } else {
        Overwrite(entry);
      }
    }

    method Append(entry: Entry)
      requires ringLen < ring.Length && ringNext == 0
      modifies this`ringLen, ring
      ensures ringLen == old(ringLen) + 1
      ensures old(ring[..ringLen]) + [entry]
              == if ringLen < ring.Length then ring[..ringLen] else ring[0..] + ring[..0]
    {
      ring[ringLen] := entry;
      ringLen := ringLen + 1;
      assert ring[..ringLen] == old(ring[..ringLen]) + [entry];
      if ringLen == ring.Length {
        assert ring[0..] + ring[..0] == ring[..ringLen];
      }
    }

    method Overwrite(entry: Entry)
      requires ringNext < ring.Length
      modifies this`ringNext, ring
      ensures ringNext < ring.Length
      ensures ring[ringNext..] + ring[..ringNext] == old(ring[ringNext..] + ring[..ringNext])[1..] + [entry]
    {
      ghost var slots := ring[..];
      Rotate(slots, ringNext, entry);
      assert slots[ringNext..] == ring[ringNext..] && slots[..ringNext] == ring[..ringNext];
      ring[ringNext] := entry;
      assert ring[..] == slots[ringNext := entry];
      ringNext := (ringNext + 1) % ring.Length;
      assert ring[..][ringNext..] == ring[ringNext..] && ring[..][..ringNext] == ring[..ringNext];
    }

    /** A consistent copy of everything; recent is newest first. */
    method Snapshot() returns (data: StatsData)
      requires Valid()
      ensures data.total == |history|
      ensures data.recent == Reverse(LastOf(history, ring.Length))
      ensures forall f :: Counted(CountsIn(data, f), history, f)
      ensures forall f :: Sum(CountsIn(data, f)) == data.total
      ensures (forall e :: e in history ==> Clean(e.report)) ==> forall f :: CountsIn(data, f).Keys <= Whitelist(f)
    {
      hide Counted, LastOf, Clean, Sum, Reverse, Whitelist, CountsIn, RingShape, Chronological;
      var paths := CopyCounts(pathClass);
      var families := CopyCounts(family);
      var protocols := CopyCounts(protocol);
      var relayProtocols := CopyCounts(relayProtocol);
      var roles := CopyCounts(pcRole);
      var sources := CopyCounts(source);
      var codecs := CopyCounts(codec);
      var events := CopyCounts(event);
      var recent := RecentFirst();
      data := StatsData(total, paths, families, protocols, relayProtocols, roles, sources, codecs, events, recent);
      StatsFacts(data, history);
    }

    static method CopyCounts(m: Counts) returns (out: Counts)
      ensures out == m
    {
      out := map[];
      var todo := m.Keys;
      while todo != {}
        invariant todo <= m.Keys
        invariant out == map k | k in m && k !in todo :: m[k]
        decreases todo
      {
        var k :| k in todo;
        todo := todo - {k};
        out := out[k := m[k]];
      }
    }

    /** Chronological order from the circular buffer, then reversed. */
    method RecentFirst() returns (newestFirst: seq<Entry>)
      requires RingShape()
      ensures newestFirst == Reverse(Chronological())
    {
      var chron := if ringLen < ring.Length then ring[..ringLen] else ring[ringNext..] + ring[..ringNext];
      var recent := new Entry[|chron|];
      for i := 0 to |chron|
        invariant forall j :: 0 <= j < i ==> recent[|chron| - 1 - j] == chron[j]
      {
        recent[|chron| - 1 - i] := chron[i];
      }
      newestFirst := recent[..];
      ReverseIs(chron, newestFirst);
    }
  }

  lemma ReverseIs(s: seq<Entry>, r: seq<Entry>)
    requires |r| == |s| && forall j :: 0 <= j < |s| ==> r[|s| - 1 - j] == s[j]
    ensures r == Reverse(s)
  {
    forall i | 0 <= i < |s| ensures |Reverse(s)| == |s| && r[i] == Reverse(s)[i] {
      ReverseAt(s, |s| - 1 - i);
      assert r[|s| - 1 - (|s| - 1 - i)] == s[|s| - 1 - i];
    }
  }

  /** The relay's answer to a request for the statistics. */
  datatype Answer = Disabled | Unauthorized | Stats(data: StatsData, direct: nat, relay: nat, directRate: real)

  const BEARER: string := "Bearer "

  class Handler {
    const adminToken: string
    const agg: Aggregator

    ghost predicate Valid()
      reads agg, agg.ring
    {
      agg.Valid() && agg.ring.Length == RING_CAPACITY && forall e :: e in agg.history ==> Clean(e.report)
    }

    constructor (adminToken: string)
      ensures Valid() && agg.history == [] && this.adminToken == adminToken && fresh(agg) && fresh(agg.ring)
    {
      this.adminToken := adminToken;
      agg := new Aggregator(RING_CAPACITY);
    }

    /** bound is the decoded body; one that cannot be decoded leaves no trace. */
    method Report(bound: Option<Report>, now: int)
      requires Valid()
      modifies agg, agg.ring
      ensures Valid()
      ensures agg.history == old(agg.history) + if bound.Some? then [Entry(Normal(bound.value), now)] else []
    {
      hide Clean, Normal, EnumsListed, NumbersCapped;
      if bound.Some? {
        var r := Normalize(bound.value);
        agg.Record(r, now);
      }
    }

    /** authorization is the header of that name, token the query parameter; "" if absent. */
    predicate CheckToken(authorization: string, token: string): (ok: bool)
      ensures ok <==> authorization == BEARER + adminToken || token == adminToken
    {
      (BEARER <= authorization && authorization[|BEARER|..] == adminToken) || token == adminToken
    }

    method Stats(authorization: string, token: string) returns (answer: Answer)
      requires Valid()
      ensures answer.Disabled? <==> adminToken == ""
      ensures answer.Stats? <==> adminToken != "" && (authorization == BEARER + adminToken || token == adminToken)
      ensures answer.Stats? ==> Faithful(answer, agg.history)
    {
      if adminToken == "" {
        return Disabled;
      }
      if !CheckToken(authorization, token) {
        return Unauthorized;
      }
      var data := agg.Snapshot();
      answer := Graded(data, agg.history);
    }
  }

  /** The part that direct has of direct and relayed ones together, zero if there are none. */
  predicate IsShare(rate: real, direct: nat, relay: nat) {
    && 0.0 <= rate <= 1.0 && rate * (direct + relay) as real == direct as real
    && (direct + relay == 0 ==> rate == 0.0)
  }

  /** Each counter map has keys of its own whitelist only. */
  ghost predicate ListedKeys(d: StatsData) {
    && d.pathClass.Keys <= PATH_CLASSES && d.family.Keys <= FAMILIES && d.protocol.Keys <= PROTOCOLS
    && d.relayProtocol.Keys <= RELAY_PROTOCOLS && d.pcRole.Keys <= PC_ROLES && d.source.Keys <= SOURCES
    && d.codec.Keys <= CODECS && d.event.Keys <= EVENTS
  }

  /** What an answer says of the reports recorded so far: everything as it is, within the whitelists, and
      the share of direct among the direct and relayed ones. */
  ghost predicate Faithful(answer: Answer, history: seq<Entry>)
    requires answer.Stats?
  {
    && answer.data.total == |history| && answer.data.recent == Reverse(LastOf(history, RING_CAPACITY))
    && NewestFirst(answer.data.recent, history, 500)
    && (forall f :: Counted(CountsIn(answer.data, f), history, f))
    && (forall f :: Sum(CountsIn(answer.data, f)) == answer.data.total)
    && (forall f :: CountsIn(answer.data, f).Keys <= Whitelist(f))
    && Tallies(answer.data, history)
    && ListedKeys(answer.data)
    && answer.direct == Occurrences(history, PathClass, "direct")
    && answer.relay == Occurrences(history, PathClass, "relay")
    && answer.direct == (if "direct" in answer.data.pathClass then answer.data.pathClass["direct"] else 0)
    && answer.relay == (if "relay" in answer.data.pathClass then answer.data.pathClass["relay"] else 0)
    && IsShare(answer.directRate, answer.direct, answer.relay)
  }

  lemma KeysAreListed(d: StatsData)
    requires forall f :: CountsIn(d, f).Keys <= Whitelist(f)
    ensures ListedKeys(d)
  {
    assert CountsIn(d, PathClass).Keys <= Whitelist(PathClass) && CountsIn(d, Family).Keys <= Whitelist(Family);
    assert CountsIn(d, Protocol).Keys <= Whitelist(Protocol) && CountsIn(d, PCRole).Keys <= Whitelist(PCRole);
    assert CountsIn(d, RelayProtocol).Keys <= Whitelist(RelayProtocol);
    assert CountsIn(d, Source).Keys <= Whitelist(Source) && CountsIn(d, Codec).Keys <= Whitelist(Codec);
    assert CountsIn(d, Event).Keys <= Whitelist(Event);
  }

  method DirectRate(direct: nat, relay: nat) returns (rate: real)
    ensures IsShare(rate, direct, relay)
  {
    rate := 0.0;
    if direct + relay > 0 {
      rate := direct as real / (direct + relay) as real;
    }
  }

  method Graded(data: StatsData, ghost history: seq<Entry>) returns (answer: Answer)
    requires data.total == |history| && data.recent == Reverse(LastOf(history, RING_CAPACITY))
    requires forall f :: Counted(CountsIn(data, f), history, f)
    requires forall f :: Sum(CountsIn(data, f)) == data.total
    requires forall f :: CountsIn(data, f).Keys <= Whitelist(f)
    ensures answer.Stats? && Faithful(answer, history)
  {
    CountsAreTallies(data, history);
    KeysAreListed(data);
    ReversedLast(history, RING_CAPACITY);
    hide NewestFirst;
    hide Occurrences, Sum, Whitelist, Reverse, LastOf, Tallies, ListedKeys, IsShare;
    assert Counted(CountsIn(data, PathClass), history, PathClass);
    var direct := if "direct" in data.pathClass then data.pathClass["direct"] else 0;
    var relay := if "relay" in data.pathClass then data.pathClass["relay"] else 0;
    assert direct == Occurrences(history, PathClass, "direct") && relay == Occurrences(history, PathClass, "relay");
    var rate := DirectRate(direct, relay);
    answer := Stats(data, direct, relay, rate);
  }
}
