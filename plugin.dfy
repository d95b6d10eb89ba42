/**
 * The plug-in object `sfp_tool_theharvester`: its configuration (`setup`),
 * the query it sends to theHarvester (`harvest`), and the deduplicating
 * event handler (`handleEvent`).
 */
module Plugin {
  import opened Wrappers
  import opened Sources
  import opened Classifier

  /** A SpiderFoot event: type, data, producing module and the event it was derived from. */
  datatype Event = Event(eventType: string, data: string, moduleName: string, sourceEvent: Option<Event>)

  /** A GET request to theHarvester's REST service: `url?source=...&domain=...`. */
  datatype Request = Request(url: string, source: string, domain: string)

  /** The name SpiderFoot gives this module (`self.__name__`). */
  const ModuleName: string := "sfp_tool_theharvester"

  /** The module name of events a user submits from SpiderFoot's interface. */
  const UiModule: string := "SpiderFoot UI"

  /** Default option values. */
  const DefaultHost: string := "localhost"
  const DefaultPort: string := "5000"
  /** The default `th_sources` value, "bing, baidu, ..., otx": nine names,
      each followed by ", " but the last, grouped the way `JoinSpaced` builds it. */
  const DefaultSources: string :=
    "bing" + ", " + ("baidu" + ", " + ("duckduckgo" + ", " + ("linkedin" + ", " + ("sublist3r" + ", "
    + ("twitter" + ", " + ("qwant" + ", " + ("linkedin_links" + ", " + "otx")))))))

  /** `watchedEvents()`: the event types the module wants to receive. */
  function WatchedEvents(): seq<string> {
    ["DOMAIN_NAME"]
  }

  /** `producedEvents()`: the event types the module may emit. */
  function ProducedEvents(): seq<string> {
    ["HUMAN_NAME", "EMAILADDR", "DOMAIN_NAME", "URL_STATIC", "IP_ADDRESS"]
  }

  /** The only inbound events that start a harvest: domains submitted from the interface. */
  predicate Triggers(event: Event) {
    event.eventType == "DOMAIN_NAME" && event.moduleName == UiModule
  }

  /** The event announcing one artifact of kind `k` found for `source`. */
  function Outbound(k: Kind, artifact: string, source: Event): Event {
    Event(KindName(k), artifact, ModuleName, Some(source))
  }

  /** The events announcing every artifact of bucket `k`, for `k` among `kinds`. */
  ghost function Announcements(data: Buckets, kinds: seq<Kind>, source: Event): set<Event> {
    set k, a | k in kinds && k in data && a in data[k] :: Outbound(k, a, source)
  }

  /** The events announcing the artifacts `artifacts` of kind `k`. */
  ghost function KindAnnouncements(k: Kind, artifacts: set<string>, source: Event): set<Event> {
    set a | a in artifacts :: Outbound(k, a, source)
  }

  /** The total size of the buckets of `kinds`. */
  function ArtifactCount(data: Buckets, kinds: seq<Kind>): nat
    decreases |kinds|
  {
    if kinds == [] then 0
    else
      var k := kinds[|kinds| - 1];
      ArtifactCount(data, kinds[..|kinds| - 1]) + (if k in data then |data[k]| else 0)
  }

  lemma KindNameInjective(k: Kind, k': Kind)
    ensures KindName(k) == KindName(k') ==> k == k'
  {
  }

  lemma MultisetOfUnion<T>(a: set<T>, b: set<T>)
    requires a !! b
    ensures multiset(a + b) == multiset(a) + multiset(b)
  {
  }

  class TheHarvester {
    /** `_base_url`: None until `setup` has run. */
    var baseUrl: Option<string>
    /** `_th_sources`. */
    var sources: seq<string>
    /** The keys of `results`: the event data already handled. */
    var seen: set<string>
    /** The requests sent to theHarvester, oldest first. */
    ghost var requests: seq<Request>
    /** The events handed to `notifyListeners`, oldest first. */
    ghost var emitted: seq<Event>

    /** Every configured source is a non-empty, stripped, comma-free name. */
    ghost predicate Valid()
      reads this
    {
      forall s :: s in sources ==> IsSourceName(s)
    }

    /** `__init__`. */
    constructor ()
      ensures Valid()
      ensures baseUrl == None && sources == [] && seen == {}
      ensures requests == [] && emitted == []
    {
      baseUrl := None;
      sources := [];
      seen := {};
      requests := [];
      emitted := [];
    }

    /** `setup`, given the merged `th_host`, `th_port` and `th_sources` options:
        a fresh seen-set, the base URL, and the parsed sources appended to
        the list. */
    method Setup(host: string, port: string, thSources: string)
      requires Valid()
      modifies this`baseUrl, this`sources, this`seen
      ensures Valid()
      ensures seen == {}
      ensures baseUrl == Some("http://" + host + ":" + port)
      ensures sources == old(sources) + ParseSources(thSources)
    {
      seen := {};
      var url := "http://" + host + ":" + port;
      baseUrl := Some(url);
      var tokens := Split(Strip(thSources));
      var i := 0;
      while i < |tokens|
        invariant 0 <= i <= |tokens|
        invariant sources == old(sources) + Clean(tokens[..i])
        invariant seen == {} && baseUrl == Some(url)
      {
        var source := Strip(tokens[i]);
        CleanPrefix(tokens, i);
        ghost var done := Clean(tokens[..i]);
        if |source| > 0 {
          sources := sources + [source];
          assert sources == old(sources) + (done + [source]);
        }
        i := i + 1;
      }
      assert tokens[..|tokens|] == tokens;
      ParseSourcesWellFormed(thSources);
    }

    /** The request `harvest` sends for `domain`. */
    function Query(domain: string): Request
      reads this
      requires baseUrl.Some?
    {
      Request(baseUrl.value + "/query", Join(sources), domain)
    }

    /** `harvest`: send the query (recorded, its answer `response` is a
        parameter) and classify the answer. */
    method Harvest(domain: string, response: Payload) returns (data: Buckets)
      requires Valid() && baseUrl.Some?
      modifies this`requests
      ensures Valid()
      ensures requests == old(requests) + [Query(domain)]
      ensures ParseSources(Query(domain).source) == sources
      ensures data == Classify(response)
    {
      requests := requests + [Query(domain)];
      ParseJoin(sources);
      data := CollectArtifacts(response);
    }

    /** `handleEvent`: skip data already seen; otherwise mark it seen and,
        for a domain submitted from the interface, harvest and announce
        every artifact found. */
    method HandleEvent(event: Event, response: Payload)
      requires Valid() && baseUrl.Some?
      modifies this`seen, this`requests, this`emitted
      ensures Valid()
      ensures seen == old(seen) + {event.data}
      ensures event.data in old(seen) || !Triggers(event) ==>
        requests == old(requests) && emitted == old(emitted)
      ensures event.data !in old(seen) && Triggers(event) ==>
        && requests == old(requests) + [Query(event.data)]
        && ParseSources(Query(event.data).source) == sources
        && |emitted| >= |old(emitted)|
        && emitted[..|old(emitted)|] == old(emitted)
        && multiset(emitted[|old(emitted)|..]) == multiset(Announcements(Classify(response), ProducedKinds, event))
        && |emitted| - |old(emitted)| == ArtifactCount(Classify(response), ProducedKinds)
    {
      if event.data in seen {
        // already checked: nothing to do
      } else {
        seen := seen + {event.data};
        if Triggers(event) {
          var data := Harvest(event.data, response);
          Announce(data, event);
        }
      }
    }

    /** The outer loop of `handleEvent`'s announcement: the event types in
        the order they were declared. */
    method Announce(data: Buckets, event: Event)
      requires forall k :: k in data
      modifies this`emitted
      ensures |emitted| >= |old(emitted)|
      ensures emitted[..|old(emitted)|] == old(emitted)
      ensures multiset(emitted[|old(emitted)|..]) == multiset(Announcements(data, ProducedKinds, event))
      ensures |emitted| - |old(emitted)| == ArtifactCount(data, ProducedKinds)
    {
      ghost var before := emitted;
      var i := 0;
      assert Announcements(data, ProducedKinds[..0], event) == {};
      while i < |ProducedKinds|
        invariant 0 <= i <= |ProducedKinds|
        invariant |emitted| >= |before| && emitted[..|before|] == before
        invariant multiset(emitted[|before|..]) == multiset(Announcements(data, ProducedKinds[..i], event))
        invariant |emitted| - |before| == ArtifactCount(data, ProducedKinds[..i])
      {
        ghost var mid := emitted;
        AnnounceKind(ProducedKinds[i], data[ProducedKinds[i]], event);
        AnnouncementsStep(data, i, event);
        SliceAppend(before, mid, emitted);
        assert ProducedKinds[..i + 1][..i] == ProducedKinds[..i];
        i := i + 1;
      }
      assert ProducedKinds[..|ProducedKinds|] == ProducedKinds;
    }

    /** The inner loop: one `notifyListeners` call per artifact of one
        type, in no particular order. */
    method AnnounceKind(evtType: Kind, artifacts: set<string>, event: Event)
      modifies this`emitted
      ensures |emitted| == |old(emitted)| + |artifacts|
      ensures emitted[..|old(emitted)|] == old(emitted)
      ensures multiset(emitted[|old(emitted)|..]) == multiset(KindAnnouncements(evtType, artifacts, event))
    {
      ghost var before := emitted;
      var elements := artifacts;
      ghost var done: set<string> := {};
      assert KindAnnouncements(evtType, {}, event) == {};
      while elements != {}
        invariant elements + done == artifacts && elements !! done
        invariant |emitted| == |before| + |done|
        invariant emitted[..|before|] == before
        invariant multiset(emitted[|before|..]) == multiset(KindAnnouncements(evtType, done, event))
        decreases elements
      {
        var artifact :| artifact in elements;
        var evt := Outbound(evtType, artifact, event);
        KindAnnouncementsStep(evtType, done, artifact, event);
        assert (emitted + [evt])[|before|..] == emitted[|before|..] + [evt];
        emitted := emitted + [evt];
        elements := elements - {artifact};
        done := done + {artifact};
      }
    }
  }

  /** Announcing one more artifact of a type. */
  lemma KindAnnouncementsStep(k: Kind, done: set<string>, artifact: string, source: Event)
    requires artifact !in done
    ensures multiset(KindAnnouncements(k, done + {artifact}, source))
         == multiset(KindAnnouncements(k, done, source)) + multiset{Outbound(k, artifact, source)}
  {
    var evt := Outbound(k, artifact, source);
    assert evt !in KindAnnouncements(k, done, source);
    assert KindAnnouncements(k, done + {artifact}, source) == KindAnnouncements(k, done, source) + {evt};
    MultisetOfUnion(KindAnnouncements(k, done, source), {evt});
  }

  /** The events added by two consecutive appends. */
  lemma SliceAppend<T>(a: seq<T>, b: seq<T>, c: seq<T>)
    requires |a| <= |b| <= |c| && b[..|a|] == a && c[..|b|] == b
    ensures c[..|a|] == a
    ensures multiset(c[|a|..]) == multiset(b[|a|..]) + multiset(c[|b|..])
  {
    assert c[|a|..] == b[|a|..] + c[|b|..];
  }

  /** Going from the first `i` kinds to the first `i + 1`. */
  lemma AnnouncementsStep(data: Buckets, i: nat, source: Event)
    requires i < |ProducedKinds| && forall k :: k in data
    ensures var k := ProducedKinds[i];
      && Announcements(data, ProducedKinds[..i + 1], source)
         == Announcements(data, ProducedKinds[..i], source) + KindAnnouncements(k, data[k], source)
      && multiset(Announcements(data, ProducedKinds[..i + 1], source))
         == multiset(Announcements(data, ProducedKinds[..i], source)) + multiset(KindAnnouncements(k, data[k], source))
  {
    EveryKindProduced();
    var k := ProducedKinds[i];
    var A, B := Announcements(data, ProducedKinds[..i], source), KindAnnouncements(k, data[k], source);
    assert ProducedKinds[..i + 1] == ProducedKinds[..i] + [k];
    assert k !in ProducedKinds[..i];
    forall e | e in A ensures e !in B {
      var k', a :| k' in ProducedKinds[..i] && k' in data && a in data[k'] && e == Outbound(k', a, source);
      KindNameInjective(k, k');
    }
    MultisetOfUnion(A, B);
  }

  // ---- The event-type contract with the host ----

  /** `producedEvents()` lists SpiderFoot's names of the classifier's kinds, in order. */
  lemma ProducedEventsNameKinds()
    ensures |ProducedEvents()| == |ProducedKinds|
    ensures forall i :: 0 <= i < |ProducedKinds| ==> ProducedEvents()[i] == KindName(ProducedKinds[i])
  {
  }

  /** Only watched events can trigger a harvest. */
  lemma TriggersAreWatched(event: Event)
    requires Triggers(event)
    ensures event.eventType in WatchedEvents()
  {
  }

  /** An announced event is exactly an event of a produced type, emitted by
      this module, derived from the inbound event, whose data is an artifact
      of the bucket of its type. */
  lemma AnnouncementShape(data: Buckets, source: Event, e: Event)
    requires forall k :: k in data
    ensures e in Announcements(data, ProducedKinds, source) <==>
      && e.moduleName == ModuleName
      && e.sourceEvent == Some(source)
      && e.eventType in ProducedEvents()
      && exists k :: KindName(k) == e.eventType && e.data in data[k]
  {
    EveryKindProduced();
    if e in Announcements(data, ProducedKinds, source) {
      var k, a :| k in ProducedKinds && k in data && a in data[k] && e == Outbound(k, a, source);
      assert KindName(k) in ProducedEvents();
    }
    if e.moduleName == ModuleName && e.sourceEvent == Some(source) && exists k :: KindName(k) == e.eventType && e.data in data[k] {
      var k :| KindName(k) == e.eventType && e.data in data[k];
      assert e == Outbound(k, e.data, source);
    }
  }

  /** The artifact count of all produced types is the sum of the five bucket sizes. */
  lemma ArtifactCountProduced(data: Buckets)
    requires forall k :: k in data
    ensures ArtifactCount(data, ProducedKinds)
         == |data[HumanName]| + |data[EmailAddr]| + |data[DomainName]| + |data[UrlStatic]| + |data[IpAddress]|
  {
    var ks := ProducedKinds;
    assert ArtifactCount(data, ks[..0]) == 0;
    assert ks[..1][..0] == ks[..0] && ks[..1][0] == HumanName;
    assert ArtifactCount(data, ks[..1]) == |data[HumanName]|;
    assert ks[..2][..1] == ks[..1] && ks[..2][1] == EmailAddr;
    assert ArtifactCount(data, ks[..2]) == |data[HumanName]| + |data[EmailAddr]|;
    assert ks[..3][..2] == ks[..2] && ks[..3][2] == DomainName;
    assert ArtifactCount(data, ks[..3]) == |data[HumanName]| + |data[EmailAddr]| + |data[DomainName]|;
    assert ks[..4][..3] == ks[..3] && ks[..4][3] == UrlStatic;
    assert ks[..4] == ks[..|ks| - 1] && ks[4] == IpAddress;
  }

  /** The classification behind the end-to-end example. */
  lemma ExampleBuckets()
    ensures Classify(map["emails" := ["a@example.com"], "ips" := ["9.9.9.9"]])
         == map[HumanName := {}, EmailAddr := {"a@example.com"}, DomainName := {}, UrlStatic := {}, IpAddress := {"9.9.9.9"}]
  {
    var p := map["emails" := ["a@example.com"], "ips" := ["9.9.9.9"]];
    var data := Classify(p);
    assert p.Keys == {"emails", "ips"};
    assert "a@example.com" in p["emails"] && "9.9.9.9" in p["ips"];
    assert CategoryKind("emails") == Some(EmailAddr) && CategoryKind("ips") == Some(IpAddress);
    forall k, s | s in data[k]
      ensures (k == EmailAddr && s == "a@example.com") || (k == IpAddress && s == "9.9.9.9")
    {
      ClassifySound(p, k, s);
      var c :| c in p && CategoryKind(c) == Some(k) && s in p[c];
      assert c == "emails" || c == "ips";
    }
    ClassifyComplete(p, "emails", "a@example.com");
    ClassifyComplete(p, "ips", "9.9.9.9");
    assert data[EmailAddr] == {"a@example.com"};
    assert data[IpAddress] == {"9.9.9.9"};
    assert data[HumanName] == {} && data[DomainName] == {} && data[UrlStatic] == {};
  }

  /** A domain submitted from the interface, for which theHarvester reports
      one email address and one IP address, gives exactly two events. */
  lemma EndToEndExample(source: Event)
    ensures var data := Classify(map["emails" := ["a@example.com"], "ips" := ["9.9.9.9"]]);
      && Announcements(data, ProducedKinds, source)
         == {Event("EMAILADDR", "a@example.com", ModuleName, Some(source)),
             Event("IP_ADDRESS", "9.9.9.9", ModuleName, Some(source))}
      && ArtifactCount(data, ProducedKinds) == 2
  {
    ExampleBuckets();
    var data := map[HumanName := {}, EmailAddr := {"a@example.com"}, DomainName := {}, UrlStatic := {}, IpAddress := {"9.9.9.9"}];
    ArtifactCountProduced(data);
    var expected := {Outbound(EmailAddr, "a@example.com", source), Outbound(IpAddress, "9.9.9.9", source)};
    assert Outbound(EmailAddr, "a@example.com", source) in Announcements(data, ProducedKinds, source);
    assert Outbound(IpAddress, "9.9.9.9", source) in Announcements(data, ProducedKinds, source);
    assert Announcements(data, ProducedKinds, source) == expected;
  }

  /** The source names of the default `th_sources` value, in order. */
  const DefaultSourceNames: seq<string> :=
    ["bing", "baidu", "duckduckgo", "linkedin", "sublist3r", "twitter", "qwant", "linkedin_links", "otx"]

  /** The default source names are well-formed. */
  lemma DefaultSourceNamesWellFormed()
    ensures forall s :: s in DefaultSourceNames ==> IsSourceName(s)
  {
    assert IsSourceName("bing");
    assert IsSourceName("baidu");
    assert IsSourceName("duckduckgo");
    assert IsSourceName("linkedin");
    assert IsSourceName("sublist3r");
    assert IsSourceName("twitter");
    assert IsSourceName("qwant");
    assert IsSourceName("linkedin_links");
    assert IsSourceName("otx");
  }

  /** The default `th_sources` value is the default names joined with ", ". */
  lemma DefaultSourcesJoined()
    ensures DefaultSources == JoinSpaced(DefaultSourceNames)
  {
  }

  /** The default `th_sources` value, with a blank after each comma, parses
      to the nine source names it lists, in order. */
  lemma DefaultSourcesParse()
    ensures ParseSources(DefaultSources) == DefaultSourceNames
  {
    DefaultSourcesJoined();
    DefaultSourceNamesWellFormed();
    ParseJoinSpaced(DefaultSourceNames);
  }

  /** A plug-in built and set up with the default options queries
      `http://localhost:5000` with the nine default sources. */
  method ConfigureDefaults() returns (plugin: TheHarvester)
    ensures fresh(plugin) && plugin.Valid()
    ensures plugin.baseUrl == Some("http://localhost:5000")
    ensures plugin.sources == DefaultSourceNames && plugin.seen == {}
    ensures plugin.requests == [] && plugin.emitted == []
  {
    plugin := new TheHarvester();
    plugin.Setup(DefaultHost, DefaultPort, DefaultSources);
    DefaultSourcesParse();
    assert "http://" + DefaultHost + ":" + DefaultPort == "http://localhost:5000";
  }
}
