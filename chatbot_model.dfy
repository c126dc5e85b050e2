/**
 * The intent corpus, its flattening into parallel tag/pattern lists used as
 * training data, and the response step `chat_bot`.
 *
 * The text vectoriser and the classifier are one opaque function
 * `predict: string -> string` from an utterance to a tag; `random.choice`
 * is a nondeterministic choice of some element of the response list.
 */
module ChatbotModel {
  import opened Wrappers

  /** One record of the intent corpus. */
  datatype Intent = Intent(tag: string, patterns: seq<string>, responses: seq<string>)

  /** What `chat_bot` produces: a response string, Python's `None` when no
      intent carries the predicted tag, or the IndexError that
      `random.choice` raises on an empty response list. */
  datatype Reply = Text(value: string) | NoneReturned | IndexError

  // ---------------------------------------------------------------------
  // Specification of the flattening

  /** `n` copies of `x`. */
  function Repeat(x: string, n: nat): (r: seq<string>)
    ensures |r| == n && forall k :: 0 <= k < n ==> r[k] == x
  {
    seq(n, _ => x)
  }

  /** Number of patterns in the whole corpus. */
  function TotalPatterns(corpus: seq<Intent>): nat
  {
    if corpus == [] then 0
    else TotalPatterns(corpus[..|corpus| - 1]) + |corpus[|corpus| - 1].patterns|
  }

  /** Every pattern of the corpus, intent by intent, each intent's patterns in order. */
  function FlatPatterns(corpus: seq<Intent>): (r: seq<string>)
    ensures |r| == TotalPatterns(corpus)
  {
    if corpus == [] then []
    else FlatPatterns(corpus[..|corpus| - 1]) + corpus[|corpus| - 1].patterns
  }

  /** The tag of each intent, once per pattern that intent has. */
  function FlatTags(corpus: seq<Intent>): (r: seq<string>)
    ensures |r| == TotalPatterns(corpus)
  {
    if corpus == [] then []
    else
      var last := corpus[|corpus| - 1];
      FlatTags(corpus[..|corpus| - 1]) + Repeat(last.tag, |last.patterns|)
  }

  /** Pattern `j` of intent `i` lands at position `TotalPatterns(corpus[..i]) + j`
      of the flat pattern list, and the tag at that position is intent `i`'s tag:
      intents keep corpus order, patterns keep their order, and the two lists
      stay aligned. */
  lemma {:induction false} FlatAlignment(corpus: seq<Intent>, i: nat, j: nat)
    requires i < |corpus| && j < |corpus[i].patterns|
    ensures TotalPatterns(corpus[..i]) + j < |FlatPatterns(corpus)|
    ensures FlatPatterns(corpus)[TotalPatterns(corpus[..i]) + j] == corpus[i].patterns[j]
    ensures FlatTags(corpus)[TotalPatterns(corpus[..i]) + j] == corpus[i].tag
  {
    var init := corpus[..|corpus| - 1];
    if i == |corpus| - 1 {
      assert corpus[..i] == init;
    } else {
      assert init[..i] == corpus[..i];
      FlatAlignment(init, i, j);
    }
  }

  /** Conversely, every position of the flat lists comes from some pattern of
      some intent, at the offset `FlatAlignment` names. */
  lemma {:induction false} FlatOrigin(corpus: seq<Intent>, k: nat)
    requires k < |FlatPatterns(corpus)|
    ensures exists i, j :: 0 <= i < |corpus| && 0 <= j < |corpus[i].patterns| &&
                           k == TotalPatterns(corpus[..i]) + j &&
                           FlatPatterns(corpus)[k] == corpus[i].patterns[j] &&
                           FlatTags(corpus)[k] == corpus[i].tag
  {
    var init := corpus[..|corpus| - 1];
    var last := |corpus| - 1;
    if k < TotalPatterns(init) {
      FlatOrigin(init, k);
      var i, j :| 0 <= i < |init| && 0 <= j < |init[i].patterns| &&
                  k == TotalPatterns(init[..i]) + j &&
                  FlatPatterns(init)[k] == init[i].patterns[j] &&
                  FlatTags(init)[k] == init[i].tag;
      assert init[..i] == corpus[..i];
      FlatAlignment(corpus, i, j);
    } else {
      var j := k - TotalPatterns(init);
      assert corpus[..last] == init;
      FlatAlignment(corpus, last, j);
    }
  }

  /** Every training tag is the tag of some intent of the corpus. */
  lemma {:induction false} TagsComeFromCorpus(corpus: seq<Intent>, k: nat)
    requires k < |FlatTags(corpus)|
    ensures exists i :: 0 <= i < |corpus| && corpus[i].tag == FlatTags(corpus)[k]
  {
    FlatOrigin(corpus, k);
  }

  /** The module-level loop of chatbot_model.py: one tag per pattern, in
      corpus order. */
  method Flatten(corpus: seq<Intent>) returns (tags: seq<string>, patterns: seq<string>)
    ensures tags == FlatTags(corpus) && patterns == FlatPatterns(corpus)
    ensures |tags| == |patterns| == TotalPatterns(corpus)
  {
    tags, patterns := [], [];
    for i := 0 to |corpus|
      invariant tags == FlatTags(corpus[..i])
      invariant patterns == FlatPatterns(corpus[..i])
    {
      var intent := corpus[i];
      assert corpus[..i + 1][..i] == corpus[..i];
      for j := 0 to |intent.patterns|
        invariant tags == FlatTags(corpus[..i]) + Repeat(intent.tag, j)
        invariant patterns == FlatPatterns(corpus[..i]) + intent.patterns[..j]
      {
        tags := tags + [intent.tag];
        patterns := patterns + [intent.patterns[j]];
        assert Repeat(intent.tag, j + 1) == Repeat(intent.tag, j) + [intent.tag];
        assert intent.patterns[..j + 1] == intent.patterns[..j] + [intent.patterns[j]];
      }
      assert intent.patterns[..|intent.patterns|] == intent.patterns;
    }
    assert corpus[..|corpus|] == corpus;
  }

  // ---------------------------------------------------------------------
  // Response lookup

  /** Index of the first intent whose tag is `tag`, if any. */
  function FirstMatch(corpus: seq<Intent>, tag: string): (r: Option<nat>)
    ensures r.Some? ==> r.value < |corpus| && corpus[r.value].tag == tag &&
                        forall j :: 0 <= j < r.value ==> corpus[j].tag != tag
    ensures r.None? <==> forall j :: 0 <= j < |corpus| ==> corpus[j].tag != tag
  {
    if corpus == [] then None
    else if corpus[0].tag == tag then Some(0)
    else
      match FirstMatch(corpus[1..], tag)
      case None => None
      case Some(n) => Some(n + 1)
  }

  /** Once an intent with the tag is found, intents after it are never
      consulted: appending any intents to the corpus leaves the match alone. */
  lemma {:induction false} FirstMatchIgnoresLater(corpus: seq<Intent>, later: seq<Intent>, tag: string)
    requires FirstMatch(corpus, tag).Some?
    ensures FirstMatch(corpus + later, tag) == FirstMatch(corpus, tag)
  {
    if corpus[0].tag != tag {
      assert (corpus + later)[1..] == corpus[1..] + later;
      FirstMatchIgnoresLater(corpus[1..], later, tag);
    }
  }

  /** The replies `chat_bot` can give once the classifier has predicted `tag`:
      some response of the first intent tagged `tag`; an IndexError when that
      intent has no responses; `None` when no intent has that tag. */
  ghost predicate IsReply(corpus: seq<Intent>, tag: string, r: Reply)
  {
    match FirstMatch(corpus, tag)
    case None => r == NoneReturned
    case Some(i) =>
      if corpus[i].responses == [] then r == IndexError
      else r.Text? && r.value in corpus[i].responses
  }

  /** `chat_bot`: classify the input, then search the corpus in order for the
      first intent with the predicted tag and pick one of its responses. */
  method ChatBot(corpus: seq<Intent>, predict: string -> string, input: string) returns (r: Reply)
    ensures IsReply(corpus, predict(input), r)
  {
    var tag := predict(input);
    var i := 0;
    while i < |corpus|
      invariant 0 <= i <= |corpus|
      invariant forall j :: 0 <= j < i ==> corpus[j].tag != tag
    {
      if corpus[i].tag == tag {
        var responses := corpus[i].responses;
        if responses == [] {
          return IndexError;
        }
        assert responses[0] in responses;
        var response :| response in responses;
        return Text(response);
      }
      i := i + 1;
    }
    return NoneReturned;
  }

  // ---------------------------------------------------------------------
  // Properties of the pipeline as a whole

  /** No two intents share a tag. */
  ghost predicate UniqueTags(corpus: seq<Intent>)
  {
    forall i, j :: 0 <= i < j < |corpus| ==> corpus[i].tag != corpus[j].tag
  }

  /** Every intent has at least one response. */
  ghost predicate AllRespond(corpus: seq<Intent>)
  {
    forall i :: 0 <= i < |corpus| ==> corpus[i].responses != []
  }

  /** Whatever the classifier predicts for an utterance, if it is a training
      tag then the lookup finds an intent: the reply is never `None`. */
  lemma {:induction false} TrainingTagIsFound(corpus: seq<Intent>, k: nat, r: Reply)
    requires k < |FlatTags(corpus)|
    requires IsReply(corpus, FlatTags(corpus)[k], r)
    ensures r != NoneReturned
  {
    TagsComeFromCorpus(corpus, k);
  }

  /** A classifier that reproduces its training labels maps every pattern of
      intent `i` to intent `i`'s tag. */
  lemma PredictsOwnTag(corpus: seq<Intent>, predict: string -> string, i: nat, j: nat)
    requires forall k :: 0 <= k < |FlatPatterns(corpus)| ==>
               predict(FlatPatterns(corpus)[k]) == FlatTags(corpus)[k]
    requires i < |corpus| && j < |corpus[i].patterns|
    ensures predict(corpus[i].patterns[j]) == corpus[i].tag
  {
    FlatAlignment(corpus, i, j);
  }

  /** With unique tags, non-empty response lists and a classifier that fits
      its training data, every pattern of an intent is answered with one of
      that intent's own responses. */
  lemma PatternGetsOwnResponse(corpus: seq<Intent>, predict: string -> string, i: nat, j: nat, r: Reply)
    requires UniqueTags(corpus) && AllRespond(corpus)
    requires forall k :: 0 <= k < |FlatPatterns(corpus)| ==>
               predict(FlatPatterns(corpus)[k]) == FlatTags(corpus)[k]
    requires i < |corpus| && j < |corpus[i].patterns|
    requires IsReply(corpus, predict(corpus[i].patterns[j]), r)
    ensures r.Text? && r.value in corpus[i].responses
  {
    PredictsOwnTag(corpus, predict, i, j);
    assert FirstMatch(corpus, corpus[i].tag) == Some(i);
  }

  /** A two-intent greet/bye corpus with a classifier that labels "bye" as
      bye and everything else as greet. */
  method GreetByeExample() returns (hi: Reply, bye: Reply)
    ensures hi == Text("Hello!") && bye == Text("Goodbye!")
  {
    var corpus := [Intent("greet", ["hi", "hello"], ["Hello!"]),
                   Intent("bye", ["bye"], ["Goodbye!"])];
    var predict := (s: string) => if s == "bye" then "bye" else "greet";
    hi := ChatBot(corpus, predict, "hi");
    assert FirstMatch(corpus, "greet") == Some(0);
    bye := ChatBot(corpus, predict, "bye");
    assert FirstMatch(corpus, "bye") == Some(1);
  }
}
