/** Which events expire and until when their payloads are kept. */
module Policy {
  import opened Common
  import opened Objects

  datatype EventMatch = EventMatch(
    kind: string, service: string, environment: string, level: Option<Level>,
    flowStatus: string, executionStatus: string, httpStatusClass: int, httpSuccess: Option<bool>)

  datatype EventPolicy = EventPolicy(match_: EventMatch, ttl: int)

  datatype PayloadPolicy = PayloadPolicy(match_: EventMatch, role: string, contentType: string, ttl: int)

  /** A default of zero means keep forever. */
  datatype Config = Config(
    eventPolicies: seq<EventPolicy>, eventClasses: map<string, int>, defaultEventTTL: int,
    payloadPolicies: seq<PayloadPolicy>, payloadClasses: map<string, int>, defaultPayloadTTL: int)

  /** validate: every TTL is positive, defaults are not negative. */
  predicate Valid(c: Config)
  {
    && (forall i :: 0 <= i < |c.eventPolicies| ==> c.eventPolicies[i].ttl > 0 && 0 <= c.eventPolicies[i].match_.httpStatusClass <= 5)
    && (forall i :: 0 <= i < |c.payloadPolicies| ==> c.payloadPolicies[i].ttl > 0 && 0 <= c.payloadPolicies[i].match_.httpStatusClass <= 5)
    && (forall n :: n in c.eventClasses ==> c.eventClasses[n] > 0)
    && (forall n :: n in c.payloadClasses ==> c.payloadClasses[n] > 0)
    && c.defaultEventTTL >= 0 && c.defaultPayloadTTL >= 0
  }

  /** Go integer division by 100 truncates toward zero. */
  function StatusClass(code: int): int
  {
    if code >= 0 then code / 100 else -((-code) / 100)
  }

  predicate MatchEvent(m: EventMatch, v: Record)
  {
    && (m.kind == "" || m.kind == v.kind)
    && (m.service == "" || m.service == v.service)
    && (m.environment == "" || m.environment == v.environment)
    && (m.level.None? || m.level.value == v.level)
    && (m.flowStatus == "" || m.flowStatus == v.flowStatus)
    && (m.executionStatus == "" || m.executionStatus == v.executionStatus)
    && (m.httpStatusClass == 0 || StatusClass(v.httpStatus) == m.httpStatusClass)
    && (m.httpSuccess.None? || m.httpSuccess.value == v.httpSuccess)
  }

  function FirstEventTTL(ps: seq<EventPolicy>, v: Record): Option<int>
  {
    if ps == [] then None
    else if MatchEvent(ps[0].match_, v) then Some(ps[0].ttl)
    else FirstEventTTL(ps[1..], v)
  }

  predicate MatchPayload(x: PayloadPolicy, v: Record, link: Link)
  {
    && MatchEvent(x.match_, v)
    && (x.role == "" || x.role == link.role)
    && (x.contentType == "" || x.contentType <= link.ref.contentType)
  }

  function FirstPayloadTTL(ps: seq<PayloadPolicy>, v: Record, link: Link): Option<int>
  {
    if ps == [] then None
    else if MatchPayload(ps[0], v, link) then Some(ps[0].ttl)
    else FirstPayloadTTL(ps[1..], v, link)
  }

  function ExpiryAt(time: int, ttl: Option<int>, default: int): Option<int>
  {
    if ttl.Some? then Some(time + ttl.value)
    else if default > 0 then Some(time + default)
    else None
  }

  function EventExpiry(c: Config, v: Record): Option<int>
  {
    if v.retentionClass != "" then
      if v.retentionClass in c.eventClasses then Some(v.time + c.eventClasses[v.retentionClass]) else None
    else ExpiryAt(v.time, FirstEventTTL(c.eventPolicies, v), c.defaultEventTTL)
  }

  function PayloadExpiry(c: Config, v: Record, link: Link): Option<int>
  {
    if link.ref.retainUntil.Some? then link.ref.retainUntil
    else if link.ref.retentionClass != "" then
      if link.ref.retentionClass in c.payloadClasses then Some(v.time + c.payloadClasses[link.ref.retentionClass]) else None
    else ExpiryAt(v.time, FirstPayloadTTL(c.payloadPolicies, v, link), c.defaultPayloadTTL)
  }

  predicate Expired(c: Config, v: Record, now: int)
  {
    EventExpiry(c, v).Some? && EventExpiry(c, v).value <= now
  }

  /** Some event policy at index i is the first to match. */
  predicate FirstMatch(ps: seq<EventPolicy>, v: Record, i: nat)
  {
    i < |ps| && MatchEvent(ps[i].match_, v) && forall j :: 0 <= j < i ==> !MatchEvent(ps[j].match_, v)
  }

  predicate FirstPayloadMatch(ps: seq<PayloadPolicy>, v: Record, link: Link, i: nat)
  {
    i < |ps| && MatchPayload(ps[i], v, link) && forall j :: 0 <= j < i ==> !MatchPayload(ps[j], v, link)
  }

  lemma {:induction false} FirstEventTTLIsFirst(ps: seq<EventPolicy>, v: Record, i: nat)
    ensures FirstMatch(ps, v, i) ==> FirstEventTTL(ps, v) == Some(ps[i].ttl)
    ensures (forall j :: 0 <= j < |ps| ==> !MatchEvent(ps[j].match_, v)) ==> FirstEventTTL(ps, v).None?
  {
    if ps != [] && !MatchEvent(ps[0].match_, v) {
      if i > 0 { FirstEventTTLIsFirst(ps[1..], v, i - 1); } else { FirstEventTTLIsFirst(ps[1..], v, 0); }
    }
  }

  lemma {:induction false} FirstPayloadTTLIsFirst(ps: seq<PayloadPolicy>, v: Record, link: Link, i: nat)
    ensures FirstPayloadMatch(ps, v, link, i) ==> FirstPayloadTTL(ps, v, link) == Some(ps[i].ttl)
    ensures (forall j :: 0 <= j < |ps| ==> !MatchPayload(ps[j], v, link)) ==> FirstPayloadTTL(ps, v, link).None?
  {
    if ps != [] && !MatchPayload(ps[0], v, link) {
      if i > 0 { FirstPayloadTTLIsFirst(ps[1..], v, link, i - 1); } else { FirstPayloadTTLIsFirst(ps[1..], v, link, 0); }
    }
  }

  /** A named class decides alone, then the first matching policy, then the default. */
  lemma EventExpiryOrder(c: Config, v: Record, i: nat)
    ensures v.retentionClass != "" && v.retentionClass !in c.eventClasses ==> EventExpiry(c, v).None?
    ensures v.retentionClass != "" && v.retentionClass in c.eventClasses ==> EventExpiry(c, v) == Some(v.time + c.eventClasses[v.retentionClass])
    ensures v.retentionClass == "" && FirstMatch(c.eventPolicies, v, i) ==> EventExpiry(c, v) == Some(v.time + c.eventPolicies[i].ttl)
    ensures v.retentionClass == "" && (forall j :: 0 <= j < |c.eventPolicies| ==> !MatchEvent(c.eventPolicies[j].match_, v)) ==>
              EventExpiry(c, v) == if c.defaultEventTTL > 0 then Some(v.time + c.defaultEventTTL) else None
  {
    FirstEventTTLIsFirst(c.eventPolicies, v, i);
  }

  /** For a payload an explicit time comes before all of that. */
  lemma PayloadExpiryOrder(c: Config, v: Record, link: Link, i: nat)
    ensures link.ref.retainUntil.Some? ==> PayloadExpiry(c, v, link) == link.ref.retainUntil
    ensures link.ref.retainUntil.None? && link.ref.retentionClass != "" ==>
              PayloadExpiry(c, v, link) == if link.ref.retentionClass in c.payloadClasses then Some(v.time + c.payloadClasses[link.ref.retentionClass]) else None
    ensures link.ref.retainUntil.None? && link.ref.retentionClass == "" && FirstPayloadMatch(c.payloadPolicies, v, link, i) ==>
              PayloadExpiry(c, v, link) == Some(v.time + c.payloadPolicies[i].ttl)
    ensures link.ref.retainUntil.None? && link.ref.retentionClass == ""
            && (forall j :: 0 <= j < |c.payloadPolicies| ==> !MatchPayload(c.payloadPolicies[j], v, link)) ==>
              PayloadExpiry(c, v, link) == if c.defaultPayloadTTL > 0 then Some(v.time + c.defaultPayloadTTL) else None
  {
    FirstPayloadTTLIsFirst(c.payloadPolicies, v, link, i);
  }

  // ---- The expiry a page of events assigns to its payloads ----

  type Times = map<Slot, int>

  /** Keep the later expiry; an absent entry counts as the zero time. */
  function Later(times: Times, slot: Slot, at: int): Times
  {
    if at > (if slot in times then times[slot] else ZERO_TIME) then times[slot := at] else times
  }

  function LinkTimes(c: Config, v: Record, links: seq<Link>, times: Times): Times
    decreases |links|
  {
    if links == [] then times
    else
      var at := PayloadExpiry(c, v, links[0]);
      LinkTimes(c, v, links[1..], if at.Some? then Later(times, SlotOf(links[0].ref), at.value) else times)
  }

  function PageTimes(c: Config, page: seq<Record>): Times
  {
    if page == [] then map[]
    else
      var last := page[|page| - 1];
      LinkTimes(c, last, last.links, PageTimes(c, page[..|page| - 1]))
  }

  lemma {:induction false} FirstPayloadTTLPositive(ps: seq<PayloadPolicy>, v: Record, link: Link)
    requires forall i :: 0 <= i < |ps| ==> ps[i].ttl > 0
    ensures FirstPayloadTTL(ps, v, link).Some? ==> FirstPayloadTTL(ps, v, link).value > 0
  {
    if ps != [] { FirstPayloadTTLPositive(ps[1..], v, link); }
  }

  /** No expiry is at or before the zero time, so an absent entry never hides one. */
  lemma PayloadExpiryAfterZero(c: Config, v: Record, link: Link)
    requires Valid(c) && PayloadExpiry(c, v, link).Some?
    ensures PayloadExpiry(c, v, link).value > ZERO_TIME
  {
    FirstPayloadTTLPositive(c.payloadPolicies, v, link);
  }

  predicate AtLeast(times: Times, slot: Slot, at: int)
  {
    slot in times && times[slot] >= at
  }

  lemma {:induction false} LinkTimesCover(c: Config, v: Record, links: seq<Link>, times: Times)
    requires Valid(c)
    ensures forall slot :: slot in times ==> AtLeast(LinkTimes(c, v, links, times), slot, times[slot])
    ensures forall i :: 0 <= i < |links| && PayloadExpiry(c, v, links[i]).Some? ==>
                          AtLeast(LinkTimes(c, v, links, times), SlotOf(links[i].ref), PayloadExpiry(c, v, links[i]).value)
    decreases |links|
  {
    if links != [] {
      var at := PayloadExpiry(c, v, links[0]);
      if at.Some? { PayloadExpiryAfterZero(c, v, links[0]); }
      var times1 := if at.Some? then Later(times, SlotOf(links[0].ref), at.value) else times;
      LinkTimesCover(c, v, links[1..], times1);
      var out := LinkTimes(c, v, links[1..], times1);
      forall slot | slot in times ensures AtLeast(out, slot, times[slot]) {
        assert AtLeast(out, slot, times1[slot]);
      }
      forall i | 0 <= i < |links| && PayloadExpiry(c, v, links[i]).Some?
        ensures AtLeast(out, SlotOf(links[i].ref), PayloadExpiry(c, v, links[i]).value)
      {
        if i == 0 {
          assert AtLeast(out, SlotOf(links[0].ref), times1[SlotOf(links[0].ref)]);
        } else {
          assert links[i] == links[1..][i - 1];
        }
      }
    }
  }

  /** The page maximum: every expiry of a payload of the page is covered. */
  lemma {:induction false} PageTimesCover(c: Config, page: seq<Record>, v: Record, link: Link)
    requires Valid(c) && v in page && link in v.links && PayloadExpiry(c, v, link).Some?
    ensures AtLeast(PageTimes(c, page), SlotOf(link.ref), PayloadExpiry(c, v, link).value)
  {
    var n := |page| - 1;
    LinkTimesCover(c, page[n], page[n].links, PageTimes(c, page[..n]));
    if v != page[n] {
      PageTimesCover(c, page[..n], v, link);
    }
  }

  predicate Assigns(c: Config, v: Record, link: Link, slot: Slot, at: int)
  {
    SlotOf(link.ref) == slot && PayloadExpiry(c, v, link) == Some(at)
  }

  lemma {:induction false} LinkTimesExact(c: Config, v: Record, links: seq<Link>, times: Times, slot: Slot)
    requires slot in LinkTimes(c, v, links, times)
    ensures var at := LinkTimes(c, v, links, times)[slot];
            (slot in times && times[slot] == at) || exists link :: link in links && Assigns(c, v, link, slot, at)
    decreases |links|
  {
    if links != [] {
      var at := PayloadExpiry(c, v, links[0]);
      var times1 := if at.Some? then Later(times, SlotOf(links[0].ref), at.value) else times;
      LinkTimesExact(c, v, links[1..], times1, slot);
      var t := LinkTimes(c, v, links, times)[slot];
      if slot in times1 && times1[slot] == t {
        assert (slot in times && times[slot] == t) || Assigns(c, v, links[0], slot, t);
      } else {
        var link :| link in links[1..] && Assigns(c, v, link, slot, t);
        assert link in links;
      }
    }
  }

  /** And nothing else: each entry is the expiry of some payload of the page. */
  lemma {:induction false} PageTimesExact(c: Config, page: seq<Record>, slot: Slot)
    requires slot in PageTimes(c, page)
    ensures exists v, link :: v in page && link in v.links && Assigns(c, v, link, slot, PageTimes(c, page)[slot])
  {
    var n := |page| - 1;
    var last := page[n];
    var at := PageTimes(c, page)[slot];
    LinkTimesExact(c, last, last.links, PageTimes(c, page[..n]), slot);
    if slot in PageTimes(c, page[..n]) && PageTimes(c, page[..n])[slot] == at {
      PageTimesExact(c, page[..n], slot);
      var v, link :| v in page[..n] && link in v.links && Assigns(c, v, link, slot, at);
      assert v in page;
    } else {
      var link :| link in last.links && Assigns(c, last, link, slot, at);
      assert last in page;
    }
  }
}
