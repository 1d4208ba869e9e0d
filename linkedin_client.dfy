/**
 * The LinkedIn client's normaliser: it turns the `elements` of a search
 * payload into the pipeline's job records, one record per element.
 */
module LinkedIn {
  import opened Wrappers

  /** One raw element of the payload: a dictionary from field names to values. */
  type Element = map<string, string>

  /** A search payload; `elements` is `None` when the payload has no `elements` key. */
  datatype Payload = Payload(elements: Option<seq<Element>>)

  /** A normalised record; a field the element lacked is `None`. */
  datatype Posting = Posting(
    id: Option<string>,
    title: Option<string>,
    company: Option<string>,
    location: Option<string>,
    description: Option<string>,
    url: Option<string>,
    source: string)

  const SourceTag := "LinkedIn"

  /** The keys the normaliser copies, in the order it copies them. */
  const CopiedKeys := ["id", "title", "company", "location", "description", "url"]

  /** `element.get(key)`. */
  function Get(element: Element, key: string): Option<string> {
    if key in element then Some(element[key]) else None
  }

  /** `jobs_data.get('elements', [])`. */
  function Elements(payload: Payload): seq<Element> {
    payload.elements.GetOr([])
  }

  /**
   * The record built for one element: tagged with the source, and holding
   * exactly the element's copied fields, so that restoring it gives back
   * what the element had under each copied key and nothing else.
   */
  function Normalise(element: Element): (p: Posting)
    ensures p.source == SourceTag
    ensures forall k :: Get(Restore(p), k) == if k in CopiedKeys then Get(element, k) else None
  {
    var p := Posting(Get(element, "id"), Get(element, "title"), Get(element, "company"),
                     Get(element, "location"), Get(element, "description"), Get(element, "url"), SourceTag);
    RestoreGets(p);
    p
  }

  /** `m` with `key` bound to the value carried by `v`, if any. */
  function Put(m: Element, key: string, v: Option<string>): Element {
    match v
    case Some(x) => m[key := x]
    case None => m
  }

  /** The element a record was built from, when that element held only the copied keys. */
  function Restore(p: Posting): Element {
    Put(Put(Put(Put(Put(Put(map[], "id", p.id), "title", p.title), "company", p.company),
        "location", p.location), "description", p.description), "url", p.url)
  }

  lemma GetPut(m: Element, key: string, v: Option<string>, k: string)
    ensures Get(Put(m, key, v), k) == if k == key && v.Some? then v else Get(m, k)
  {
  }

  /** What a restored element holds under each key. */
  lemma GetRestore(p: Posting, k: string)
    ensures Get(Restore(p), k) ==
      if k == "url" then p.url
      else if k == "description" then p.description
      else if k == "location" then p.location
      else if k == "company" then p.company
      else if k == "title" then p.title
      else if k == "id" then p.id
      else None
  {
    var m1 := Put(map[], "id", p.id);
    var m2 := Put(m1, "title", p.title);
    var m3 := Put(m2, "company", p.company);
    var m4 := Put(m3, "location", p.location);
    var m5 := Put(m4, "description", p.description);
    GetPut(map[], "id", p.id, k);
    GetPut(m1, "title", p.title, k);
    GetPut(m2, "company", p.company, k);
    GetPut(m3, "location", p.location, k);
    GetPut(m4, "description", p.description, k);
    GetPut(m5, "url", p.url, k);
  }

  /** What a restored element holds under every key. */
  lemma RestoreGets(p: Posting)
    ensures forall k :: Get(Restore(p), k) ==
              if k == "url" then p.url
              else if k == "description" then p.description
              else if k == "location" then p.location
              else if k == "company" then p.company
              else if k == "title" then p.title
              else if k == "id" then p.id
              else None
  {
    forall k {
      GetRestore(p, k);
    }
  }

  /** Two elements that agree under every key are equal. */
  lemma SameGets(a: Element, b: Element)
    requires forall k :: Get(a, k) == Get(b, k)
    ensures a == b
  {
    forall k | k in a ensures k in b && a[k] == b[k] {
      assert Get(a, k) == Get(b, k);
    }
    forall k | k in b ensures k in a {
      assert Get(a, k) == Get(b, k);
    }
  }

  /** Normalising loses nothing of an element that holds only the copied keys. */
  lemma RestoreNormalise(element: Element)
    requires forall k :: k in element ==> k in CopiedKeys
    ensures Restore(Normalise(element)) == element
  {
    var r := Restore(Normalise(element));
    forall k ensures Get(r, k) == Get(element, k) {
      if k !in CopiedKeys {
        assert k !in element;
      }
    }
    SameGets(r, element);
  }

  /** Every record tagged with the source is the normalisation of the element it restores to. */
  lemma NormaliseRestore(p: Posting)
    requires p.source == SourceTag
    ensures Normalise(Restore(p)) == p
  {
    var r := Restore(p);
    GetRestore(p, "id");
    GetRestore(p, "title");
    GetRestore(p, "company");
    GetRestore(p, "location");
    GetRestore(p, "description");
    GetRestore(p, "url");
  }

  /**
   * `_parse_jobs`: one record per element of the payload, in order, each
   * copying the six fields and tagged with the source; nothing is dropped.
   */
  method ParseJobs(payload: Payload) returns (parsed: seq<Posting>)
    ensures |parsed| == |Elements(payload)|
    ensures forall i :: 0 <= i < |parsed| ==> parsed[i] == Normalise(Elements(payload)[i])
    ensures forall i :: 0 <= i < |parsed| ==> parsed[i].source == SourceTag
    ensures payload.elements.None? ==> parsed == []
  {
    parsed := [];
    var elements := Elements(payload);
    for n := 0 to |elements|
      invariant |parsed| == n
      invariant forall i :: 0 <= i < n ==> parsed[i] == Normalise(elements[i])
    {
      var job := elements[n];
      parsed := parsed + [Posting(
        Get(job, "id"),
        Get(job, "title"),
        Get(job, "company"),
        Get(job, "location"),
        Get(job, "description"),
        Get(job, "url"),
        SourceTag)];
    }
  }
}
