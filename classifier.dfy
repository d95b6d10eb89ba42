/**
 * The classification step of `harvest`: theHarvester answers with a JSON
 * object mapping result categories to lists of strings, and the plug-in
 * sorts those strings into one set per event type it produces.
 */
module Classifier {
  import opened Wrappers

  /** The five event types the plug-in produces. */
  datatype Kind = HumanName | EmailAddr | DomainName | UrlStatic | IpAddress

  /** SpiderFoot's name for each event type. */
  function KindName(k: Kind): string {
    match k
    case HumanName => "HUMAN_NAME"
    case EmailAddr => "EMAILADDR"
    case DomainName => "DOMAIN_NAME"
    case UrlStatic => "URL_STATIC"
    case IpAddress => "IP_ADDRESS"
  }

  /** The produced event types, in the order the plug-in declares them. */
  const ProducedKinds: seq<Kind> := [HumanName, EmailAddr, DomainName, UrlStatic, IpAddress]

  /** The declared list names every kind, each once. */
  lemma EveryKindProduced()
    ensures forall k :: k in ProducedKinds
    ensures forall i, j :: 0 <= i < j < |ProducedKinds| ==> ProducedKinds[i] != ProducedKinds[j]
  {
    forall k: Kind ensures k in ProducedKinds {
      match k
      case HumanName => assert ProducedKinds[0] == k;
      case EmailAddr => assert ProducedKinds[1] == k;
      case DomainName => assert ProducedKinds[2] == k;
      case UrlStatic => assert ProducedKinds[3] == k;
      case IpAddress => assert ProducedKinds[4] == k;
    }
  }

  /** The decoded answer of theHarvester: category name to list of values. */
  type Payload = map<string, seq<string>>

  /** One set of artifacts per event type. */
  type Buckets = map<Kind, set<string>>

  /** The classification table: the event type a result category feeds,
      or None for a category the plug-in ignores. */
  function CategoryKind(category: string): Option<Kind> {
    if category == "twitter_people" || category == "linkedin_people" then Some(HumanName)
    else if category == "interesting_urls" || category == "linkedin_links" || category == "trello_urls" then Some(UrlStatic)
    else if category == "ips" then Some(IpAddress)
    else if category == "emails" then Some(EmailAddr)
    else if category == "hosts" then Some(DomainName)
    else None
  }

  /** Every value listed, under one of `categories`, in a category that feeds `k`. */
  function BucketOf(payload: Payload, categories: set<string>, k: Kind): set<string> {
    set c, s | c in categories && c in payload && CategoryKind(c) == Some(k) && s in payload[c] :: s
  }

  /** The buckets obtained from the categories in `categories` alone. */
  function ClassifyPart(payload: Payload, categories: set<string>): Buckets {
    map k | k in ProducedKinds :: BucketOf(payload, categories, k)
  }

  /** The classification of a whole payload. */
  function Classify(payload: Payload): (r: Buckets)
    ensures r.Keys == {HumanName, EmailAddr, DomainName, UrlStatic, IpAddress}
    // Implied by the line above, but stated for every kind `k` so that callers
    // can index the result without a case split on `k`.
    ensures forall k :: k in r
  {
    EveryKindProduced();
    ClassifyPart(payload, payload.Keys)
  }

  /** Adding one more category to the ones already classified. */
  lemma ClassifyPartStep(payload: Payload, done: set<string>, c: string)
    requires c in payload
    ensures var before, after := ClassifyPart(payload, done), ClassifyPart(payload, done + {c});
      after == match CategoryKind(c)
               case None => before
               case Some(k) => before[k := before[k] + set s | s in payload[c]]
  {
    var before, after := ClassifyPart(payload, done), ClassifyPart(payload, done + {c});
    forall k | k in ProducedKinds
      ensures after[k] == if CategoryKind(c) == Some(k) then before[k] + set s | s in payload[c] else before[k]
    {
      assert forall s :: s in after[k] ==> s in (if CategoryKind(c) == Some(k) then before[k] + set s | s in payload[c] else before[k]);
    }
  }

  /** The loop of `harvest` after the request: start every produced type at
      the empty set and union each known category's values into its type. */
  method CollectArtifacts(results: Payload) returns (data: Buckets)
    ensures data == Classify(results)
  {
    data := map k | k in ProducedKinds :: {};
    var todo := results.Keys;
    assert results.Keys - todo == {};
    assert forall k :: k in ProducedKinds ==> BucketOf(results, {}, k) == {};
    while todo != {}
      invariant todo <= results.Keys
      invariant data == ClassifyPart(results, results.Keys - todo)
      decreases todo
    {
      var entity :| entity in todo;
      var elements := results[entity];
      ClassifyPartStep(results, results.Keys - todo, entity);
      if entity == "twitter_people" || entity == "linkedin_people" {
        data := data[HumanName := data[HumanName] + set e | e in elements];
      } else if entity == "interesting_urls" || entity == "linkedin_links" || entity == "trello_urls" {
        data := data[UrlStatic := data[UrlStatic] + set e | e in elements];
      } else if entity == "ips" {
        data := data[IpAddress := data[IpAddress] + set e | e in elements];
      } else if entity == "emails" {
        data := data[EmailAddr := data[EmailAddr] + set e | e in elements];
      } else if entity == "hosts" {
        data := data[DomainName := data[DomainName] + set e | e in elements];
      }
      assert results.Keys - (todo - {entity}) == (results.Keys - todo) + {entity};
      todo := todo - {entity};
    }
    assert results.Keys - todo == results.Keys;
  }

  // ---- Properties of the classification ----

  /** Completeness: every value listed under a known category lands in the
      bucket of that category's event type. */
  lemma ClassifyComplete(payload: Payload, c: string, s: string)
    requires c in payload && s in payload[c]
    ensures c == "twitter_people" || c == "linkedin_people" ==> s in Classify(payload)[HumanName]
    ensures c == "interesting_urls" || c == "linkedin_links" || c == "trello_urls" ==> s in Classify(payload)[UrlStatic]
    ensures c == "ips" ==> s in Classify(payload)[IpAddress]
    ensures c == "emails" ==> s in Classify(payload)[EmailAddr]
    ensures c == "hosts" ==> s in Classify(payload)[DomainName]
  {
  }

  /** Soundness: a value is in a bucket only if some category feeding that
      bucket's event type lists it. */
  lemma ClassifySound(payload: Payload, k: Kind, s: string)
    requires s in Classify(payload)[k]
    ensures exists c :: c in payload && CategoryKind(c) == Some(k) && s in payload[c]
  {
  }

  /** Soundness, category by category: a value is in a bucket only if the
      answer lists it under one of the categories the table sends there. */
  lemma ClassifySoundNamed(payload: Payload, s: string)
    ensures s in Classify(payload)[HumanName] ==>
      || ("twitter_people" in payload && s in payload["twitter_people"])
      || ("linkedin_people" in payload && s in payload["linkedin_people"])
    ensures s in Classify(payload)[UrlStatic] ==>
      || ("interesting_urls" in payload && s in payload["interesting_urls"])
      || ("linkedin_links" in payload && s in payload["linkedin_links"])
      || ("trello_urls" in payload && s in payload["trello_urls"])
    ensures s in Classify(payload)[IpAddress] ==> "ips" in payload && s in payload["ips"]
    ensures s in Classify(payload)[EmailAddr] ==> "emails" in payload && s in payload["emails"]
    ensures s in Classify(payload)[DomainName] ==> "hosts" in payload && s in payload["hosts"]
  {
    forall k | s in Classify(payload)[k]
      ensures exists c :: c in payload && CategoryKind(c) == Some(k) && s in payload[c]
    {
      ClassifySound(payload, k, s);
    }
  }

  /** A payload made of unknown categories only gives five empty buckets. */
  lemma UnknownCategoriesOnly(payload: Payload)
    requires forall c :: c in payload ==> CategoryKind(c) == None
    ensures forall k :: Classify(payload)[k] == {}
  {
  }

  /** A category outside the table contributes nothing, whatever it lists. */
  lemma UnknownCategoryIgnored(payload: Payload, c: string, values: seq<string>)
    requires CategoryKind(c) == None
    ensures Classify(payload[c := values]) == Classify(payload - {c})
  {
    var p, q := payload[c := values], payload - {c};
    forall k | k in ProducedKinds
      ensures BucketOf(p, p.Keys, k) == BucketOf(q, q.Keys, k)
    {
      forall s | s in BucketOf(p, p.Keys, k) ensures s in BucketOf(q, q.Keys, k) {
        var c' :| c' in p.Keys && c' in p && CategoryKind(c') == Some(k) && s in p[c'];
        assert c' != c && c' in q && q[c'] == p[c'];
      }
      forall s | s in BucketOf(q, q.Keys, k) ensures s in BucketOf(p, p.Keys, k) {
        var c' :| c' in q.Keys && c' in q && CategoryKind(c') == Some(k) && s in q[c'];
        assert c' in p && q[c'] == p[c'];
      }
    }
  }

  /** Buckets are sets: repeating a value in a category, or reordering the
      category's list, changes nothing. */
  lemma RepetitionIrrelevant(payload: Payload, c: string, values: seq<string>)
    requires c in payload
    requires forall s :: s in values <==> s in payload[c]
    ensures Classify(payload[c := values]) == Classify(payload)
  {
    var p := payload[c := values];
    forall k | k in ProducedKinds
      ensures BucketOf(p, p.Keys, k) == BucketOf(payload, payload.Keys, k)
    {
      forall s | s in BucketOf(p, p.Keys, k) ensures s in BucketOf(payload, payload.Keys, k) {
        var c' :| c' in p.Keys && c' in p && CategoryKind(c') == Some(k) && s in p[c'];
        assert c' in payload && s in payload[c'];
      }
      forall s | s in BucketOf(payload, payload.Keys, k) ensures s in BucketOf(p, p.Keys, k) {
        var c' :| c' in payload.Keys && c' in payload && CategoryKind(c') == Some(k) && s in payload[c'];
        assert c' in p && s in p[c'];
      }
    }
  }

  /** A value listed under a category that feeds an event type is in that
      type's bucket. */
  lemma ClassifyMember(payload: Payload, c: string, k: Kind, s: string)
    requires c in payload && CategoryKind(c) == Some(k) && s in payload[c]
    ensures s in Classify(payload)[k]
  {
  }

  /** Every value of either payload survives their merge. */
  lemma ClassifyUnionKeeps(p: Payload, q: Payload, k: Kind)
    requires p.Keys !! q.Keys
    ensures Classify(p)[k] + Classify(q)[k] <= Classify(p + q)[k]
  {
    forall s | s in Classify(p)[k] ensures s in Classify(p + q)[k] {
      ClassifySound(p, k, s);
      var c :| c in p && CategoryKind(c) == Some(k) && s in p[c];
      assert c !in q && (p + q)[c] == p[c];
      ClassifyMember(p + q, c, k, s);
    }
    forall s | s in Classify(q)[k] ensures s in Classify(p + q)[k] {
      ClassifySound(q, k, s);
      var c :| c in q && CategoryKind(c) == Some(k) && s in q[c];
      assert (p + q)[c] == q[c];
      ClassifyMember(p + q, c, k, s);
    }
  }

  /** The merge of two payloads adds no value that neither of them lists. */
  lemma ClassifyUnionAddsNothing(p: Payload, q: Payload, k: Kind)
    requires p.Keys !! q.Keys
    ensures Classify(p + q)[k] <= Classify(p)[k] + Classify(q)[k]
  {
    var r := p + q;
    forall s | s in Classify(r)[k] ensures s in Classify(p)[k] + Classify(q)[k] {
      ClassifySound(r, k, s);
      var c :| c in r && CategoryKind(c) == Some(k) && s in r[c];
      if c in q {
        assert r[c] == q[c];
        ClassifyMember(q, c, k, s);
      } else {
        assert c in p && r[c] == p[c];
        ClassifyMember(p, c, k, s);
      }
    }
  }

  /** The order in which categories arrive does not matter: the buckets of
      two payloads with disjoint categories are the unions of their buckets. */
  lemma ClassifyUnion(p: Payload, q: Payload, k: Kind)
    requires p.Keys !! q.Keys
    ensures Classify(p + q)[k] == Classify(p)[k] + Classify(q)[k]
  {
    ClassifyUnionKeeps(p, q, k);
    ClassifyUnionAddsNothing(p, q, k);
  }

  /** Buckets are independent: one string may be an IP address and a host at
      once, and repeats within one bucket collapse. */
  lemma IndependentBuckets()
    ensures var data := Classify(map["ips" := ["1.2.3.4", "1.2.3.4"], "hosts" := ["1.2.3.4"]]);
      && data[IpAddress] == {"1.2.3.4"}
      && data[DomainName] == {"1.2.3.4"}
      && data[HumanName] == data[EmailAddr] == data[UrlStatic] == {}
  {
    var p := map["ips" := ["1.2.3.4", "1.2.3.4"], "hosts" := ["1.2.3.4"]];
    var data := Classify(p);
    assert p.Keys == {"ips", "hosts"};
    assert CategoryKind("ips") == Some(IpAddress) && CategoryKind("hosts") == Some(DomainName);
    assert "1.2.3.4" in p["ips"] && "1.2.3.4" in p["hosts"];
    forall k, s | s in data[k]
      ensures (k == IpAddress || k == DomainName) && s == "1.2.3.4"
    {
      ClassifySound(p, k, s);
    }
  }
}
