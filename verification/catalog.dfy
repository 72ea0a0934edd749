/** The catalog client: the request sent to the upstream GraphQL catalog, the
    decoded response, and the local filter that keeps the questions whose
    title contains the search string (ignoring case) and reshapes each into a
    Problem. */
module Catalog {
  import opened Text

  /** One topic tag of an upstream question. */
  datatype TopicTag = TopicTag(name: string, slug: string)

  /** One upstream question record, as decoded from the catalog's answer. */
  datatype Question = Question(
    title: string,
    titleSlug: string,
    difficulty: string,
    content: string,
    topicTags: seq<TopicTag>)

  /** The decoded `problemsetQuestionList` object. */
  datatype QuestionList = QuestionList(totalNum: int, questions: seq<Question>)

  /** The public record returned to callers of the search endpoint. */
  datatype Problem = Problem(
    title: string,
    titleSlug: string,
    difficulty: string,
    content: string,
    tags: seq<string>)

  /** Any failure of the upstream call: network, non-success status or a
      payload that does not decode. */
  datatype TransportError = TransportError(detail: string)

  datatype Result<T> = Ok(value: T) | Err(error: TransportError)

  /** The variables of the GraphQL request. */
  datatype CatalogRequest = CatalogRequest(
    categorySlug: string,
    limit: int,
    skip: int,
    searchKeywords: string)

  const CategorySlug: string := "all-code-essentials"
  const PageLimit: int := 100
  const PageSkip: int := 0

  /** The upstream catalog: what it answers to one request. */
  type Upstream = CatalogRequest -> Result<QuestionList>

  /** The request sent for a search: always the first page of up to 100
      questions of the fixed category, filtered upstream by the keyword. */
  function RequestFor(search: string): CatalogRequest
  {
    CatalogRequest(CategorySlug, PageLimit, PageSkip, search)
  }

  // ---------------------------------------------------------------------
  // Specification of the local filter/map

  /** A question is kept when its lower-cased title contains the lower-cased
      search string. */
  predicate Matches(q: Question, search: string)
  {
    Contains(ToLower(q.title), ToLower(search))
  }

  /** The names of the tags, in order. */
  function TagNames(tags: seq<TopicTag>): seq<string>
  {
    if tags == [] then [] else TagNames(tags[..|tags| - 1]) + [tags[|tags| - 1].name]
  }

  /** The public shape of one question. */
  function Project(q: Question): Problem
  {
    Problem(q.title, q.titleSlug, q.difficulty, q.content, TagNames(q.topicTags))
  }

  /** The questions that match, in input order. */
  function Kept(qs: seq<Question>, search: string): seq<Question>
  {
    if qs == [] then []
    else Kept(qs[..|qs| - 1], search) + (if Matches(qs[|qs| - 1], search) then [qs[|qs| - 1]] else [])
  }

  /** Every question projected, in order. */
  function ProjectAll(qs: seq<Question>): seq<Problem>
  {
    if qs == [] then [] else ProjectAll(qs[..|qs| - 1]) + [Project(qs[|qs| - 1])]
  }

  /** The result of the local filter: map Project over filter Matches. */
  function Select(qs: seq<Question>, search: string): seq<Problem>
  {
    ProjectAll(Kept(qs, search))
  }

  /** Positions of the kept questions, in increasing order. */
  function KeptIndices(qs: seq<Question>, search: string): seq<int>
  {
    if qs == [] then []
    else KeptIndices(qs[..|qs| - 1], search) + (if Matches(qs[|qs| - 1], search) then [|qs| - 1] else [])
  }

  // ---------------------------------------------------------------------
  // Properties of the specification

  /** Tags are the names of the topic tags: same length, same order. */
  lemma {:induction false} TagNamesFaithful(tags: seq<TopicTag>)
    ensures |TagNames(tags)| == |tags|
    ensures forall k :: 0 <= k < |tags| ==> TagNames(tags)[k] == tags[k].name
  {
    if tags != [] {
      TagNamesFaithful(tags[..|tags| - 1]);
    }
  }

  /** Projection keeps the element count and the order. */
  lemma {:induction false} ProjectAllPointwise(qs: seq<Question>)
    ensures |ProjectAll(qs)| == |qs|
    ensures forall k :: 0 <= k < |qs| ==> ProjectAll(qs)[k] == Project(qs[k])
  {
    if qs != [] {
      ProjectAllPointwise(qs[..|qs| - 1]);
    }
  }

  /** The kept indices pick out the kept questions, and each of them matches. */
  lemma {:induction false} KeptIndicesPick(qs: seq<Question>, search: string)
    ensures |KeptIndices(qs, search)| == |Kept(qs, search)|
    ensures forall k :: 0 <= k < |KeptIndices(qs, search)| ==>
      0 <= KeptIndices(qs, search)[k] < |qs|
      && Kept(qs, search)[k] == qs[KeptIndices(qs, search)[k]]
      && Matches(qs[KeptIndices(qs, search)[k]], search)
  {
    if qs != [] {
      var init := qs[..|qs| - 1];
      KeptIndicesPick(init, search);
      assert forall j :: 0 <= j < |init| ==> init[j] == qs[j];
    }
  }

  /** The kept indices are strictly increasing and bounded by the input length. */
  lemma {:induction false} KeptIndicesIncrease(qs: seq<Question>, search: string)
    ensures forall k :: 0 <= k < |KeptIndices(qs, search)| ==> 0 <= KeptIndices(qs, search)[k] < |qs|
    ensures forall k, l :: 0 <= k < l < |KeptIndices(qs, search)| ==>
      KeptIndices(qs, search)[k] < KeptIndices(qs, search)[l]
  {
    if qs != [] {
      KeptIndicesIncrease(qs[..|qs| - 1], search);
    }
  }

  /** A position is kept exactly when the question there matches. */
  lemma {:induction false} KeptIndicesExact(qs: seq<Question>, search: string)
    ensures forall i :: 0 <= i < |qs| ==> (i in KeptIndices(qs, search) <==> Matches(qs[i], search))
  {
    if qs != [] {
      var init := qs[..|qs| - 1];
      KeptIndicesExact(init, search);
      KeptIndicesIncrease(init, search);
      forall i | 0 <= i < |qs|
        ensures i in KeptIndices(qs, search) <==> Matches(qs[i], search)
      {
        if i < |init| {
          assert qs[i] == init[i];
        }
      }
    }
  }

  /** The output is an ordered subsequence of the projected input: the k-th
      output is the projection of the question at the k-th kept index, the
      kept indices increase, and they are exactly the matching positions. */
  lemma SelectIsOrderedSubsequence(qs: seq<Question>, search: string)
    ensures |KeptIndices(qs, search)| == |Select(qs, search)|
    ensures forall k :: 0 <= k < |KeptIndices(qs, search)| ==>
      0 <= KeptIndices(qs, search)[k] < |qs|
      && Matches(qs[KeptIndices(qs, search)[k]], search)
      && Select(qs, search)[k] == Project(qs[KeptIndices(qs, search)[k]])
    ensures forall k, l :: 0 <= k < l < |KeptIndices(qs, search)| ==>
      KeptIndices(qs, search)[k] < KeptIndices(qs, search)[l]
    ensures forall i :: 0 <= i < |qs| ==> (i in KeptIndices(qs, search) <==> Matches(qs[i], search))
  {
    ProjectAllPointwise(Kept(qs, search));
    KeptIndicesPick(qs, search);
    KeptIndicesIncrease(qs, search);
    KeptIndicesExact(qs, search);
  }

  /** Mapping fidelity: the k-th problem carries the scalar fields of the
      question it came from unchanged, and its tags are exactly the names of
      that question's topic tags, same length and order (the slugs are
      dropped). */
  lemma SelectFieldsFaithful(qs: seq<Question>, search: string, k: int)
    requires 0 <= k < |KeptIndices(qs, search)|
    ensures k < |Select(qs, search)| && 0 <= KeptIndices(qs, search)[k] < |qs|
    ensures var p, q := Select(qs, search)[k], qs[KeptIndices(qs, search)[k]];
      && p.title == q.title && p.titleSlug == q.titleSlug
      && p.difficulty == q.difficulty && p.content == q.content
      && |p.tags| == |q.topicTags|
      && forall j :: 0 <= j < |q.topicTags| ==> p.tags[j] == q.topicTags[j].name
  {
    SelectIsOrderedSubsequence(qs, search);
    TagNamesFaithful(qs[KeptIndices(qs, search)[k]].topicTags);
  }

  /** Soundness: every returned problem's title contains the search string,
      ignoring case. */
  lemma SelectSound(qs: seq<Question>, search: string)
    ensures forall p :: p in Select(qs, search) ==> Contains(ToLower(p.title), ToLower(search))
  {
    SelectIsOrderedSubsequence(qs, search);
    forall p | p in Select(qs, search)
      ensures Contains(ToLower(p.title), ToLower(search))
    {
      var k :| 0 <= k < |Select(qs, search)| && Select(qs, search)[k] == p;
      var i := KeptIndices(qs, search)[k];
      assert p == Project(qs[i]) && Matches(qs[i], search);
    }
  }

  /** Completeness: every matching question appears, projected, in the
      output. */
  lemma SelectComplete(qs: seq<Question>, search: string)
    ensures forall i :: 0 <= i < |qs| && Matches(qs[i], search) ==> Project(qs[i]) in Select(qs, search)
  {
    SelectIsOrderedSubsequence(qs, search);
    forall i | 0 <= i < |qs| && Matches(qs[i], search)
      ensures Project(qs[i]) in Select(qs, search)
    {
      var k :| 0 <= k < |KeptIndices(qs, search)| && KeptIndices(qs, search)[k] == i;
      assert Select(qs, search)[k] == Project(qs[i]);
    }
  }

  /** The filter ignores the case of the search string. */
  lemma {:induction false} SelectIgnoresSearchCase(qs: seq<Question>, s1: string, s2: string)
    requires ToLower(s1) == ToLower(s2)
    ensures Select(qs, s1) == Select(qs, s2)
  {
    KeptIgnoresSearchCase(qs, s1, s2);
  }

  lemma {:induction false} KeptIgnoresSearchCase(qs: seq<Question>, s1: string, s2: string)
    requires ToLower(s1) == ToLower(s2)
    ensures Kept(qs, s1) == Kept(qs, s2)
  {
    if qs != [] {
      KeptIgnoresSearchCase(qs[..|qs| - 1], s1, s2);
    }
  }

  /** An empty search string keeps every question. */
  lemma {:induction false} SelectEmptySearch(qs: seq<Question>)
    ensures Select(qs, "") == ProjectAll(qs)
  {
    KeptEmptySearch(qs);
  }

  lemma {:induction false} KeptEmptySearch(qs: seq<Question>)
    ensures Kept(qs, "") == qs
  {
    if qs != [] {
      KeptEmptySearch(qs[..|qs| - 1]);
      ContainsEmpty(ToLower(qs[|qs| - 1].title));
    }
  }

  // ---------------------------------------------------------------------
  // The implementation

  /** Builds the tag-name list by appending one name per topic tag. */
  method CollectTagNames(topicTags: seq<TopicTag>) returns (tags: seq<string>)
    ensures tags == TagNames(topicTags)
  {
    tags := [];
    for i := 0 to |topicTags|
      invariant tags == TagNames(topicTags[..i])
    {
      assert topicTags[..i + 1][..i] == topicTags[..i];
      tags := tags + [topicTags[i].name];
    }
    assert topicTags[..|topicTags|] == topicTags;
  }

  /** The loop of the client: walks the decoded questions in order and
      appends the projection of each one whose title matches. */
  method FilterProblems(questions: seq<Question>, search: string) returns (problems: seq<Problem>)
    ensures problems == Select(questions, search)
  {
    problems := [];
    for i := 0 to |questions|
      invariant problems == ProjectAll(Kept(questions[..i], search))
    {
      var q := questions[i];
      ghost var before := Kept(questions[..i], search);
      assert questions[..i + 1][..i] == questions[..i];
      if Contains(ToLower(q.title), ToLower(search)) {
        var tags := CollectTagNames(q.topicTags);
        assert Kept(questions[..i + 1], search) == before + [q];
        assert (before + [q])[..|before|] == before;
        problems := problems + [Problem(q.title, q.titleSlug, q.difficulty, q.content, tags)];
      } else {
        assert Kept(questions[..i + 1], search) == before;
      }
    }
    assert questions[..|questions|] == questions;
  }

  /** The GraphQL client as the service sees it: the catalog answers each
      request as `answer` says, and `sent` records every request run so far,
      in order. */
  class CatalogClient {
    const answer: Upstream
    var sent: seq<CatalogRequest>

    constructor (answer: Upstream)
      ensures this.answer == answer && sent == []
    {
      this.answer := answer;
      sent := [];
    }

    /** Sends one request and returns the catalog's decoded answer or its
        transport error. */
    method Run(req: CatalogRequest) returns (r: Result<QuestionList>)
      modifies this
      ensures sent == old(sent) + [req]
      ensures r == answer(req)
    {
      sent := sent + [req];
      r := answer(req);
    }
  }

  /** The client: exactly one request to the upstream catalog, the error
      passed on unchanged, otherwise the decoded questions filtered locally. */
  method FetchProblems(search: string, client: CatalogClient) returns (r: Result<seq<Problem>>)
    modifies client
    ensures client.sent == old(client.sent) + [RequestFor(search)]
    ensures client.answer(RequestFor(search)).Err? ==> r == Err(client.answer(RequestFor(search)).error)
    ensures client.answer(RequestFor(search)).Ok? ==>
      r == Ok(Select(client.answer(RequestFor(search)).value.questions, search))
  {
    var resp := client.Run(RequestFor(search));
    if resp.Err? {
      return Err(resp.error);
    }
    var problems := FilterProblems(resp.value.questions, search);
    return Ok(problems);
  }
}
