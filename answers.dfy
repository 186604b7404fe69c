/** The instant-answers call of async_ddgs.go (`Answers`): two requests to
    the answers API, both decoded into the same map, then the abstract and
    the related topics flattened into one list of answers. */
module Answers {
  import opened Wrappers
  import opened Strings
  import opened Extractors
  import opened Search

  /** One entry of the result: icon URL, text, topic name and URL. */
  datatype Answer = Answer(icon: string, text: string, topic: string, url: string)

  const AnswersUrl: string := "https://api.duckduckgo.com/"
  const IconHost: string := "https://duckduckgo.com"

  function AnswersRequest(q: string): Request {
    Request("GET", AnswersUrl, map["format" := "json", "q" := q])
  }

  /** `m[k].(map[string]any)` with the comma-ok form: the object's fields,
      or the empty map (Go's nil map reads the same). */
  function ObjectOr(m: map<string, Json>, k: string): map<string, Json> {
    match Lookup(m, k)
    case Some(JObject(fields)) => fields
    case _ => map[]
  }

  /** `m[k].([]any)` with the comma-ok form: the items, or none. */
  function ItemsOr(m: map<string, Json>, k: string): seq<Json> {
    match Lookup(m, k)
    case Some(JArray(items)) => items
    case _ => []
  }

  /** json.Unmarshal of a response into the map `into`: a syntax error or a
      top-level value other than an object or null is an error; null sets the
      map to nil (read here as the empty map); an object adds its keys to the
      map, replacing the values of keys it repeats. */
  function Unmarshal(decoded: Option<Json>, into: map<string, Json>): (r: Result<map<string, Json>, Error>)
    ensures r.Failure? ==> r.error == DecodeError
    ensures decoded == Some(JNull) ==> r == Success(map[])
    ensures decoded.Some? && decoded.value.JObject? ==>
      r.Success? && r.value.Keys == into.Keys + decoded.value.fields.Keys &&
      (forall k :: k in decoded.value.fields ==> r.value[k] == decoded.value.fields[k]) &&
      (forall k :: k in into && k !in decoded.value.fields ==> r.value[k] == into[k])
  {
    match decoded
    case Some(JNull) => Success(map[])
    case Some(JObject(fields)) => Success(into + fields)
    case _ => Failure(DecodeError)
  }

  /** The entry of one topic object: its icon path under the DuckDuckGo host,
      its text and URL, under the topic name given. */
  function Entry(m: map<string, Json>, topic: string): (a: Answer)
  {
    Answer(IconHost + StringOr(ObjectOr(m, "Icon"), "URL"), StringOr(m, "Text"), topic, StringOr(m, "FirstURL"))
  }

  /** Every topic entry links its icon under the DuckDuckGo host. */
  lemma EntryIcon(m: map<string, Json>, topic: string)
    ensures HasPrefix(Entry(m, topic).icon, IconHost)
  {
    var icon := Entry(m, topic).icon;
    assert icon[..|IconHost|] == IconHost;
  }

  /** The entries of the sub-topics of a named group, in order. */
  function GroupEntries(subs: seq<Json>, topic: string): (r: seq<Answer>)
    ensures |r| == |subs|
  {
    if subs == [] then []
    else GroupEntries(subs[..|subs| - 1], topic) + [Entry(Fields(subs[|subs| - 1]), topic)]
  }

  /** The entries of one related topic: a topic without a name is an entry of
      its own, a named one is a group whose sub-topics each give an entry. */
  function TopicEntry(row: Json): seq<Answer> {
    var m := Fields(row);
    var name := StringOr(m, "Name");
    if name == "" then [Entry(m, "")] else GroupEntries(ItemsOr(m, "Topics"), name)
  }

  /** The related topics flattened, in order. */
  function TopicEntries(topics: seq<Json>): seq<Answer> {
    if topics == [] then [] else TopicEntry(topics[0]) + TopicEntries(topics[1..])
  }

  /** The answer from the abstract: present only when its text is not empty. */
  function AbstractEntries(page: map<string, Json>): (r: seq<Answer>)
    ensures |r| <= 1
    ensures r != [] <==> StringOr(page, "AbstractText") != ""
    ensures r != [] ==> r[0] == Answer("", StringOr(page, "AbstractText"), "", StringOr(page, "AbstractURL"))
  {
    var answer := StringOr(page, "AbstractText");
    if answer != "" then [Answer("", answer, "", StringOr(page, "AbstractURL"))] else []
  }

  /** Answers: "what is <keywords>" for the abstract, then the keywords alone
      for the related topics, decoded on top of the first response. */
  function AnswersSpec(env: Env, keywords: string): (r: Result<seq<Answer>, Error>)
    ensures keywords == "" <==> r == Failure(MissingKeywords)
    ensures r.Failure? ==> r.error in {MissingKeywords, TransportError, DecodeError}
  {
    if keywords == "" then Failure(MissingKeywords)
    else match env.fetch(AnswersRequest("what is " + keywords))
      case None => Failure(TransportError)
      case Some(first) =>
        match Unmarshal(env.decodeJson(first), map[])
        case Failure(e) => Failure(e)
        case Success(page) =>
          match env.fetch(AnswersRequest(keywords))
          case None => Failure(TransportError)
          case Some(second) =>
            match Unmarshal(env.decodeJson(second), page)
            case Failure(e) => Failure(e)
            case Success(merged) => Success(AbstractEntries(page) + TopicEntries(ItemsOr(merged, "RelatedTopics")))
  }

  /** The group loop: appends one entry per sub-topic. */
  method AppendGroup(results: seq<Answer>, subs: seq<Json>, topic: string) returns (out: seq<Answer>)
    ensures out == results + GroupEntries(subs, topic)
  {
    out := results;
    var i := 0;
    while i < |subs|
      invariant 0 <= i <= |subs|
      invariant out == results + GroupEntries(subs[..i], topic)
    {
      assert subs[..i + 1][..i] == subs[..i];
      out := out + [Entry(Fields(subs[i]), topic)];
      i := i + 1;
    }
    assert subs[..i] == subs;
  }

  /** One iteration of the RelatedTopics loop: a topic without a name is
      appended as one entry, a named one through the group loop. */
  method AppendTopic(results: seq<Answer>, row: Json) returns (out: seq<Answer>)
    ensures out == results + TopicEntry(row)
  {
    var m := Fields(row);
    var name := StringOr(m, "Name");
    if name == "" {
      out := results + [Entry(m, "")];
    } else {
      out := AppendGroup(results, ItemsOr(m, "Topics"), name);
    }
  }

  /** The RelatedTopics loop: appends the entries of each topic in turn. */
  method AppendTopics(results: seq<Answer>, topics: seq<Json>) returns (out: seq<Answer>)
    ensures out == results + TopicEntries(topics)
  {
    out := results;
    var i := 0;
    assert topics[0..] == topics;
    while i < |topics|
      invariant 0 <= i <= |topics|
      invariant out + TopicEntries(topics[i..]) == results + TopicEntries(topics)
    {
      assert TopicEntries(topics[i..]) == TopicEntry(topics[i]) + TopicEntries(topics[i + 1..]) by {
        assert topics[i..][1..] == topics[i + 1..];
      }
      out := AppendTopic(out, topics[i]);
      i := i + 1;
    }
  }

  method Answers(env: Env, keywords: string) returns (r: Result<seq<Answer>, Error>)
    ensures r == AnswersSpec(env, keywords)
  {
    if keywords == "" {
      return Failure(MissingKeywords);
    }
    var first := env.fetch(AnswersRequest("what is " + keywords));
    if first.None? {
      return Failure(TransportError);
    }
    var page := Unmarshal(env.decodeJson(first.value), map[]);
    if page.Failure? {
      return Failure(page.error);
    }
    var results := AbstractEntries(page.value);
    var second := env.fetch(AnswersRequest(keywords));
    if second.None? {
      return Failure(TransportError);
    }
    var merged := Unmarshal(env.decodeJson(second.value), page.value);
    if merged.Failure? {
      return Failure(merged.error);
    }
    results := AppendTopics(results, ItemsOr(merged.value, "RelatedTopics"));
    return Success(results);
  }

  /** Flattening distributes over concatenation: the entries of two runs of
      topics are those of the first run followed by those of the second. */
  lemma {:induction false} TopicEntriesAppend(a: seq<Json>, b: seq<Json>)
    ensures TopicEntries(a + b) == TopicEntries(a) + TopicEntries(b)
  {
    if a == [] {
      assert a + b == b;
    } else {
      assert (a + b)[0] == a[0];
      assert (a + b)[1..] == a[1..] + b;
      TopicEntriesAppend(a[1..], b);
    }
  }

  /** Every flattened entry links its icon under the DuckDuckGo host and
      carries either no topic or the name of the group it came from. */
  lemma {:induction false} TopicEntriesShape(topics: seq<Json>)
    ensures forall e :: e in TopicEntries(topics) ==> HasPrefix(e.icon, IconHost)
    ensures forall e :: e in TopicEntries(topics) && e.topic != "" ==>
      exists t :: t in topics && StringOr(Fields(t), "Name") == e.topic
  {
    if topics != [] {
      var first := topics[0];
      var rest := topics[1..];
      TopicEntriesShape(rest);
      forall e | e in TopicEntry(first)
        ensures HasPrefix(e.icon, IconHost)
        ensures e.topic != "" ==> e.topic == StringOr(Fields(first), "Name")
      {
        var m := Fields(first);
        if StringOr(m, "Name") != "" {
          GroupEntriesShape(ItemsOr(m, "Topics"), StringOr(m, "Name"));
        } else {
          EntryIcon(m, "");
        }
      }
      forall e | e in TopicEntries(topics) && e.topic != ""
        ensures exists t :: t in topics && StringOr(Fields(t), "Name") == e.topic
      {
        if e in TopicEntries(rest) {
          var t :| t in rest && StringOr(Fields(t), "Name") == e.topic;
          assert t in topics;
        } else {
          assert first in topics;
        }
      }
    }
  }

  lemma {:induction false} GroupEntriesShape(subs: seq<Json>, topic: string)
    ensures forall e :: e in GroupEntries(subs, topic) ==> HasPrefix(e.icon, IconHost) && e.topic == topic
  {
    if subs != [] {
      GroupEntriesShape(subs[..|subs| - 1], topic);
      EntryIcon(Fields(subs[|subs| - 1]), topic);
    }
  }

  /** A successful call lists the abstract answer first, when there is one,
      then exactly the flattened related topics of the merged responses. */
  lemma AnswersLayout(env: Env, keywords: string, page: map<string, Json>, merged: map<string, Json>)
    requires keywords != ""
    requires var first := env.fetch(AnswersRequest("what is " + keywords));
      first.Some? && Unmarshal(env.decodeJson(first.value), map[]) == Success(page)
    requires var second := env.fetch(AnswersRequest(keywords));
      second.Some? && Unmarshal(env.decodeJson(second.value), page) == Success(merged)
    ensures AnswersSpec(env, keywords).Success?
    ensures var r := AnswersSpec(env, keywords).value;
      var n := if StringOr(page, "AbstractText") != "" then 1 else 0;
      n <= |r| &&
      (n == 1 ==> r[0] == Answer("", StringOr(page, "AbstractText"), "", StringOr(page, "AbstractURL"))) &&
      r[n..] == TopicEntries(ItemsOr(merged, "RelatedTopics")) &&
      (forall i :: n <= i < |r| ==> HasPrefix(r[i].icon, IconHost))
  {
    var r := AnswersSpec(env, keywords).value;
    var topics := ItemsOr(merged, "RelatedTopics");
    var a := AbstractEntries(page);
    assert r == a + TopicEntries(topics);
    assert r[|a|..] == TopicEntries(topics);
    TopicEntriesShape(topics);
    forall i | |a| <= i < |r| ensures HasPrefix(r[i].icon, IconHost) {
      assert r[i] == TopicEntries(topics)[i - |a|];
      assert r[i] in TopicEntries(topics);
    }
  }

  /** The second response is decoded on top of the first: when it has no
      RelatedTopics of its own, those of the "what is" response are used. */
  lemma AnswersKeepsFirstTopics(env: Env, keywords: string, page: map<string, Json>, fields: map<string, Json>)
    requires keywords != ""
    requires var first := env.fetch(AnswersRequest("what is " + keywords));
      first.Some? && Unmarshal(env.decodeJson(first.value), map[]) == Success(page)
    requires var second := env.fetch(AnswersRequest(keywords));
      second.Some? && env.decodeJson(second.value) == Some(JObject(fields))
    requires "RelatedTopics" !in fields
    ensures AnswersSpec(env, keywords) == Success(AbstractEntries(page) + TopicEntries(ItemsOr(page, "RelatedTopics")))
  {
    var merged := page + fields;
    assert Lookup(merged, "RelatedTopics") == Lookup(page, "RelatedTopics");
  }
}
