/** Normalisation of the provider's response into at most ten topic records
    (get_baidu_hot) and the snapshot document written for them (save_hot_topics). */
module Fetcher {
  import opened Py
  import opened Values

  /** One trending item. Its rank is implicit: its 1-based position in the list. */
  datatype Topic = Topic(title: Option<Json>, url: Option<Json>, hotScore: Option<Json>)

  /** get_baidu_hot keeps the first ten topics. */
  const MaxTopics: nat := 10

  /** The topic record built from one provider item: `word`, `url` and `hotScore`
      become `title`, `url` and `hot_score`. */
  function ToTopic(item: map<string, Json>): (t: Topic)
    ensures Normal(t)
    ensures t.title.Some? <==> "word" in item && item["word"] != JNull
    ensures t.title.Some? ==> t.title.value == item["word"]
    ensures t.url.Some? <==> "url" in item && item["url"] != JNull
    ensures t.url.Some? ==> t.url.value == item["url"]
    ensures t.hotScore.Some? <==> "hotScore" in item && item["hotScore"] != JNull
    ensures t.hotScore.Some? ==> t.hotScore.value == item["hotScore"]
  {
    Topic(Get(item, "word"), Get(item, "url"), Get(item, "hotScore"))
  }

  /** No field of `t` holds a JSON null: a missing or null provider field is None. */
  predicate Normal(t: Topic)
  {
    t.title != Some(JNull) && t.url != Some(JNull) && t.hotScore != Some(JNull)
  }

  /** `data.get("data", {}).get("cards", [{}])[0].get("content", [])`, with the
      exception Python raises when a level has the wrong shape. */
  function ContentField(body: Json): (r: Result<Json>)
    ensures r.Ok? <==>
      body.JObj? &&
      ("data" in body.members ==>
         body.members["data"].JObj? &&
         ("cards" in body.members["data"].members ==>
            body.members["data"].members["cards"].JArr? &&
            |body.members["data"].members["cards"].items| > 0 &&
            body.members["data"].members["cards"].items[0].JObj?))
    ensures body.JObj? && "data" !in body.members ==> r == Ok(JArr([]))
    ensures (body.JObj? && "data" in body.members && body.members["data"].JObj? &&
             "cards" !in body.members["data"].members) ==> r == Ok(JArr([]))
    ensures (body.JObj? && "data" in body.members && body.members["data"].JObj? &&
             "cards" in body.members["data"].members &&
             body.members["data"].members["cards"] == JArr([])) ==> r.Err?
    ensures (body.JObj? && "data" in body.members && body.members["data"].JObj? &&
             "cards" in body.members["data"].members && body.members["data"].members["cards"].JArr? &&
             |body.members["data"].members["cards"].items| > 0 &&
             body.members["data"].members["cards"].items[0].JObj?) ==>
      var first := body.members["data"].members["cards"].items[0].members;
      r == Ok(if "content" in first then first["content"] else JArr([]))
  {
    if !body.JObj? then Err("AttributeError: response body has no attribute 'get'")
    else
      var data := GetOr(body.members, "data", JObj(map[]));
      if !data.JObj? then Err("AttributeError: 'data' has no attribute 'get'")
      else
        var cards := GetOr(data.members, "cards", JArr([JObj(map[])]));
        if !cards.JArr? then Err("TypeError: 'cards' cannot be indexed by 0")
        else if |cards.items| == 0 then Err("IndexError: list index out of range")
        else if !cards.items[0].JObj? then Err("AttributeError: 'cards[0]' has no attribute 'get'")
        else Ok(GetOr(cards.items[0].members, "content", JArr([])))
  }

  /** The items a Python `for` loop visits in `v`. An empty string or object yields
      nothing; a non-empty one yields strings, on which the loop body's `.get` raises;
      null, booleans and numbers are not iterable. */
  function Iterate(v: Json): (r: Result<seq<Json>>)
    ensures v.JArr? ==> r == Ok(v.items)
    ensures r.Ok? <==> v.JArr? || v == JStr("") || v == JObj(map[])
    ensures r.Ok? && r.value != [] ==> v.JArr?
  {
    match v
    case JArr(xs) => Ok(xs)
    case JStr(s) => if s == [] then Ok([]) else Err("AttributeError: 'str' object has no attribute 'get'")
    case JObj(m) => if m == map[] then Ok([]) else Err("AttributeError: 'str' object has no attribute 'get'")
    case _ => Err("TypeError: object is not iterable")
  }

  /** The provider items the loop of get_baidu_hot walks through. */
  function ContentItems(body: Json): Result<seq<Json>>
  {
    match ContentField(body)
    case Err(e) => Err(e)
    case Ok(content) => Iterate(content)
  }

  /** Every item is a dictionary, so `item.get` raises for none of them. */
  predicate AllObjects(items: seq<Json>)
  {
    forall i :: 0 <= i < |items| ==> items[i].JObj?
  }

  /** The records the loop appends, one per item, in provider order. */
  function TopicsOf(items: seq<Json>): seq<Topic>
    requires AllObjects(items)
  {
    seq(|items|, i requires 0 <= i < |items| && items[i].JObj? => ToTopic(items[i].members))
  }

  /** Python's `s[:n]`. */
  function Take<T>(s: seq<T>, n: nat): (r: seq<T>)
    ensures |r| == if |s| <= n then |s| else n
    ensures forall i :: 0 <= i < |r| ==> r[i] == s[i]
  {
    if |s| <= n then s else s[..n]
  }

  /** What get_baidu_hot returns when the request, its status check and JSON decoding
      ended in `response`: any exception on the way gives the empty list. */
  function FetchTopics(response: Result<Json>): (topics: seq<Topic>)
    ensures |topics| <= MaxTopics
    ensures forall i :: 0 <= i < |topics| ==> Normal(topics[i])
  {
    if response.Err? then []
    else
      match ContentItems(response.value)
      case Err(_) => []
      case Ok(items) => if AllObjects(items) then Take(TopicsOf(items), MaxTopics) else []
  }

  /** The fetch yields topics exactly when the request and decoding succeeded, the list
      was found, it is not empty and every item in it (not only the first ten) is a
      dictionary; otherwise it yields the empty list, never a partial one. */
  lemma FetchAllOrNothing(response: Result<Json>)
    ensures FetchTopics(response) != [] <==>
      response.Ok? && ContentItems(response.value).Ok? &&
      ContentItems(response.value).value != [] && AllObjects(ContentItems(response.value).value)
  {
  }

  /** A successful fetch keeps the first min(N, 10) items in provider order, mapping
      `word`, `url` and `hotScore` to `title`, `url` and `hot_score`. */
  lemma FetchKeepsFirstTen(response: Result<Json>, items: seq<Json>)
    requires response.Ok? && ContentItems(response.value) == Ok(items) && AllObjects(items)
    ensures var topics := FetchTopics(response);
      |topics| == (if |items| < MaxTopics then |items| else MaxTopics) &&
      forall i :: 0 <= i < |topics| ==>
        topics[i].title == Get(items[i].members, "word") &&
        topics[i].url == Get(items[i].members, "url") &&
        topics[i].hotScore == Get(items[i].members, "hotScore")
  {
  }

  /** One item that is not a dictionary, even one past the tenth, empties the result:
      the loop builds every record before the list is cut to ten. */
  lemma MalformedItemDiscardsAll(response: Result<Json>, items: seq<Json>, j: nat)
    requires response.Ok? && ContentItems(response.value) == Ok(items)
    requires j < |items| && !items[j].JObj?
    ensures FetchTopics(response) == []
  {
  }

  /** A JSON document field for an optional value: None is written as null. */
  function FieldJson(v: Option<Json>): Json
  {
    match v
    case None => JNull
    case Some(x) => x
  }

  /** The object json.dump writes for one topic. */
  function TopicJson(t: Topic): Json
  {
    JObj(map["title" := FieldJson(t.title), "url" := FieldJson(t.url), "hot_score" := FieldJson(t.hotScore)])
  }

  /** The document save_hot_topics writes: an array with one object per topic. */
  function SnapshotJson(topics: seq<Topic>): Json
  {
    JArr(seq(|topics|, i requires 0 <= i < |topics| => TopicJson(topics[i])))
  }

  /** A topic read back from one object of a snapshot document. */
  function ReadTopic(obj: map<string, Json>): Topic
  {
    Topic(Get(obj, "title"), Get(obj, "url"), Get(obj, "hot_score"))
  }

  /** The topics read back from a snapshot document, None when it is not an array of
      objects. */
  function ReadSnapshot(doc: Json): Option<seq<Topic>>
  {
    if doc.JArr? && AllObjects(doc.items) then
      Some(seq(|doc.items|, i requires 0 <= i < |doc.items| && doc.items[i].JObj? => ReadTopic(doc.items[i].members)))
    else None
  }

  /** Reading one written topic back gives the same topic. */
  lemma TopicRoundTrip(t: Topic)
    requires Normal(t)
    ensures TopicJson(t).JObj? && ReadTopic(TopicJson(t).members) == t
  {
  }

  /** Reading a written snapshot back gives the same topics, field for field. */
  lemma {:induction false} SnapshotRoundTrip(topics: seq<Topic>)
    requires forall i :: 0 <= i < |topics| ==> Normal(topics[i])
    ensures ReadSnapshot(SnapshotJson(topics)) == Some(topics)
  {
    var doc := SnapshotJson(topics);
    forall i | 0 <= i < |topics|
      ensures doc.items[i].JObj? && ReadTopic(doc.items[i].members) == topics[i]
    {
      TopicRoundTrip(topics[i]);
    }
    assert AllObjects(doc.items);
    var back := ReadSnapshot(doc).value;
    assert |back| == |topics|;
    assert forall i :: 0 <= i < |topics| ==> back[i] == topics[i];
    assert back == topics;
    assert doc == SnapshotJson(topics);
    assert ReadSnapshot(doc) == Some(back);
  }
}
