/** The AI mentor panel: the guard in front of a request, the prompt built
    from the role, the topic, the answers and the progress, the streamed
    reply put together fragment by fragment, the de-duplication of the cited
    web sources, and the quick-action questions. The model service itself is
    outside the model: its reply is an input. */
module Mentor {
  import opened Types
  import RoadmapProgress

  const ERROR_REPLY: string := "Sorry, I encountered an error. Please try again."

  // ---------------------------------------------------------------------------
  // Messages and replies

  datatype WebSource = WebSource(uri: string, title: string)

  /** A grounding chunk; only those with a `web` part are shown. */
  datatype GroundingChunk = GroundingChunk(web: Option<WebSource>)

  datatype Speaker = User | Model

  /** A chat message; `sources` is absent on user messages and on the error
      reply. */
  datatype ChatMessage = ChatMessage(speaker: Speaker, text: string, sources: Option<seq<GroundingChunk>>)

  /** One streamed fragment: its text (absent text is concatenated as the
      word "undefined") and the grounding chunks of its first candidate. */
  datatype Fragment = Fragment(text: Option<string>, grounding: Option<seq<GroundingChunk>>)

  /** How the service answers: a complete stream, a failure before any
      fragment, or a failure after the given fragments. */
  datatype Reply = Streamed(fragments: seq<Fragment>) | FailedBeforeStream | FailedMidStream(received: seq<Fragment>)

  // ---------------------------------------------------------------------------
  // The blank-input guard

  /** The characters `String.prototype.trim` removes: the white space and
      line terminators of ECMAScript, including every space separator. */
  predicate IsTrimmed(c: char)
  {
    || c == ' ' || c == '\t' || c == '\n' || c == '\r' || c == '\U{000B}' || c == '\U{000C}'
    || c == '\U{00A0}' || c == '\U{1680}' || ('\U{2000}' <= c <= '\U{200A}')
    || c == '\U{2028}' || c == '\U{2029}' || c == '\U{202F}' || c == '\U{205F}' || c == '\U{3000}'
    || c == '\U{FEFF}'
  }

  /** `!question.trim()`: nothing is left after trimming. */
  predicate Blank(question: string)
  {
    forall i :: 0 <= i < |question| ==> IsTrimmed(question[i])
  }

  /** `trim`: the white space at both ends removed. */
  function Trim(s: string): string
  {
    TrimEnd(TrimStart(s))
  }

  function TrimStart(s: string): string
  {
    if s != [] && IsTrimmed(s[0]) then TrimStart(s[1..]) else s
  }

  function TrimEnd(s: string): string
  {
    if s != [] && IsTrimmed(s[|s| - 1]) then TrimEnd(s[..|s| - 1]) else s
  }

  /** A question is blank exactly when trimming leaves the empty string. */
  lemma {:induction false} BlankIffTrimmedEmpty(question: string)
    ensures Blank(question) <==> Trim(question) == ""
  {
    TrimStartBlank(question);
    var t := TrimStart(question);
    if t != [] {
      TrimEndKeepsFirst(t);
    }
  }

  /** Trimming the front empties a string exactly when it is all white space;
      otherwise what is left starts with a character that is kept. */
  lemma {:induction false} TrimStartBlank(s: string)
    ensures TrimStart(s) == [] <==> Blank(s)
    ensures TrimStart(s) != [] ==> !IsTrimmed(TrimStart(s)[0])
  {
    if s != [] && IsTrimmed(s[0]) {
      TrimStartBlank(s[1..]);
      assert forall i :: 0 < i < |s| ==> s[i] == s[1..][i - 1];
    }
  }

  /** Trimming the end never removes a first character that is kept. */
  lemma {:induction false} TrimEndKeepsFirst(t: string)
    requires t != [] && !IsTrimmed(t[0])
    ensures TrimEnd(t) != []
  {
    if IsTrimmed(t[|t| - 1]) {
      TrimEndKeepsFirst(t[..|t| - 1]);
    }
  }

  // ---------------------------------------------------------------------------
  // The prompt

  /** The prompt sent to the service. Without a role or a topic it is the
      question alone; otherwise it carries what the mentor text is filled
      from: the role's name, the level (q5), the interests (q6), the learning
      style (q9), the progress records, the topic and the question. */
  datatype Prompt =
    | Bare(question: string)
    | Contextual(roleName: string, level: Option<Entry>, interests: seq<string>, style: Option<Entry>,
                 progress: Progress, topic: RoadmapTopic, question: string)

  /** `buildContext`, or `None` where it throws: with a role and a topic it
      joins the q6 answer as a list, and anything but a list there is a type
      error. */
  function BuildContext(question: string, role: Option<Role>, topic: Option<RoadmapTopic>,
                        answers: Answers, progress: Progress): (p: Option<Prompt>)
    ensures role.None? || topic.None? ==> p == Some(Bare(question))
    ensures p.None? <==> role.Some? && topic.Some? && !("q6" in answers && answers["q6"].Multi?)
    ensures p.Some? ==> p.value.question == question
    ensures p.Some? && p.value.Contextual? ==>
      p.value.roleName == role.value.name && p.value.topic == topic.value
      && p.value.interests == answers["q6"].values && p.value.progress == progress
  {
    if role.None? || topic.None? then Some(Bare(question))
    else if "q6" in answers && answers["q6"].Multi? then
      Some(Contextual(role.value.name,
        if "q5" in answers then Some(answers["q5"]) else None,
        answers["q6"].values,
        if "q9" in answers then Some(answers["q9"]) else None,
        progress, topic.value, question))
    else None
  }

  /** The progress line of a contextual prompt states the same counts as the
      dashboard: the completed records and the hours over every record. */
  ghost function PromptProgressCounts(p: Prompt): (counts: (nat, int))
    requires p.Contextual?
    ensures counts.0 == |RoadmapProgress.CompletedTopicIds(p.progress)|
  {
    RoadmapProgress.CompletedRecordsCount(p.progress);
    (RoadmapProgress.CompletedRecords(p.progress), RoadmapProgress.TotalHours(p.progress))
  }

  // ---------------------------------------------------------------------------
  // The streamed reply

  function FragmentText(f: Fragment): string
  {
    match f.text
    case Some(t) => t
    case None => "undefined"
  }

  /** The texts of the fragments, one after the other. */
  function Concatenation(fs: seq<Fragment>): string
  {
    if fs == [] then "" else Concatenation(fs[..|fs| - 1]) + FragmentText(fs[|fs| - 1])
  }

  /** The grounding chunks of the fragments, one after the other. */
  function Grounding(fs: seq<Fragment>): seq<GroundingChunk>
  {
    if fs == [] then []
    else
      var last := fs[|fs| - 1];
      Grounding(fs[..|fs| - 1]) + match last.grounding case Some(g) => g case None => []
  }

  /** The text of a stream split in two is the text of the first part
      followed by that of the second. */
  lemma {:induction false} ConcatenationAppend(a: seq<Fragment>, b: seq<Fragment>)
    ensures Concatenation(a + b) == Concatenation(a) + Concatenation(b)
    decreases |b|
  {
    if b == [] {
      assert a + b == a;
    } else {
      var init := b[..|b| - 1];
      assert (a + b)[..|a + b| - 1] == a + init;
      ConcatenationAppend(a, init);
    }
  }

  /** The read loop: the text grows by each fragment's text, and the fast
      model also collects each fragment's grounding chunks. */
  method ReadStream(fs: seq<Fragment>, useProModel: bool) returns (text: string, sources: seq<GroundingChunk>)
    ensures text == Concatenation(fs)
    ensures sources == if useProModel then [] else Grounding(fs)
  {
    text := "";
    sources := [];
    var i := 0;
    while i < |fs|
      invariant 0 <= i <= |fs|
      invariant text == Concatenation(fs[..i])
      invariant sources == if useProModel then [] else Grounding(fs[..i])
    {
      assert fs[..i + 1][..i] == fs[..i];
      text := text + FragmentText(fs[i]);
      if !useProModel && fs[i].grounding.Some? {
        sources := sources + fs[i].grounding.value;
      }
      i := i + 1;
    }
    assert fs[..i] == fs;
  }

  // ---------------------------------------------------------------------------
  // De-duplicating the sources

  /** Chunk `i` is kept: it has a web part whose uri no earlier web chunk has. */
  predicate Kept(sources: seq<GroundingChunk>, i: int)
    requires 0 <= i < |sources|
  {
    sources[i].web.Some?
    && forall j :: 0 <= j < i ==> !(sources[j].web.Some? && sources[j].web.value.uri == sources[i].web.value.uri)
  }

  /** The kept chunks among the first `n`, in order. */
  function KeptAmong(sources: seq<GroundingChunk>, n: nat): seq<GroundingChunk>
    requires n <= |sources|
  {
    if n == 0 then [] else KeptAmong(sources, n - 1) + (if Kept(sources, n - 1) then [sources[n - 1]] else [])
  }

  /** The uris of the web chunks among the first `n`. */
  function WebUris(sources: seq<GroundingChunk>, n: nat): (uris: set<string>)
    requires n <= |sources|
  {
    set j | 0 <= j < n && sources[j].web.Some? :: sources[j].web.value.uri
  }

  /** The loop over `sources` with a set of seen uris. */
  method DedupSources(sources: seq<GroundingChunk>) returns (unique: seq<GroundingChunk>)
    ensures unique == KeptAmong(sources, |sources|)
  {
    unique := [];
    var seen: set<string> := {};
    var i := 0;
    while i < |sources|
      invariant 0 <= i <= |sources|
      invariant seen == WebUris(sources, i)
      invariant unique == KeptAmong(sources, i)
    {
      var source := sources[i];
      if source.web.Some? && source.web.value.uri !in seen {
        unique := unique + [source];
        seen := seen + {source.web.value.uri};
      }
      assert WebUris(sources, i + 1) == WebUris(sources, i) + (if source.web.Some? then {source.web.value.uri} else {});
      i := i + 1;
    }
  }

  /** The positions of the kept chunks among the first `n`. */
  ghost function KeptIndices(sources: seq<GroundingChunk>, n: nat): seq<int>
    requires n <= |sources|
  {
    if n == 0 then [] else KeptIndices(sources, n - 1) + (if Kept(sources, n - 1) then [n - 1] else [])
  }

  /** The positions are the witnesses for where each de-duplicated chunk came
      from: increasing, each one kept, and every kept position among them. */
  lemma {:induction false} KeptIndicesWitness(sources: seq<GroundingChunk>, n: nat)
    requires n <= |sources|
    ensures var ix := KeptIndices(sources, n);
      && |ix| == |KeptAmong(sources, n)|
      && (forall k :: 0 <= k < |ix| ==>
            0 <= ix[k] < n && Kept(sources, ix[k]) && KeptAmong(sources, n)[k] == sources[ix[k]])
      && (forall k, l :: 0 <= k < l < |ix| ==> ix[k] < ix[l])
      && (forall i :: 0 <= i < n && Kept(sources, i) ==> i in ix)
  {
    if n > 0 {
      KeptIndicesWitness(sources, n - 1);
      var prev := KeptIndices(sources, n - 1);
      var ix := KeptIndices(sources, n);
      var u := KeptAmong(sources, n);
      if Kept(sources, n - 1) {
        assert ix == prev + [n - 1];
        assert u == KeptAmong(sources, n - 1) + [sources[n - 1]];
      } else {
        assert ix == prev;
        assert u == KeptAmong(sources, n - 1);
      }
    }
  }

  /** Every uri among the first `n` chunks is the uri of some kept chunk. */
  lemma {:induction false} KeptAmongCoversUris(sources: seq<GroundingChunk>, n: nat, j: int)
    requires n <= |sources|
    requires 0 <= j < n && sources[j].web.Some?
    ensures exists k :: 0 <= k < |KeptAmong(sources, n)| && UriIs(KeptAmong(sources, n)[k], sources[j].web.value.uri)
    decreases j
  {
    KeptIndicesWitness(sources, n);
    var ix := KeptIndices(sources, n);
    if Kept(sources, j) {
      assert j in ix;
      var k :| 0 <= k < |ix| && ix[k] == j;
      assert KeptAmong(sources, n)[k] == sources[j];
    } else {
      var j' :| 0 <= j' < j && sources[j'].web.Some? && sources[j'].web.value.uri == sources[j].web.value.uri;
      KeptAmongCoversUris(sources, n, j');
    }
  }

  /** The chunk has a web part with this uri. */
  predicate UriIs(chunk: GroundingChunk, uri: string)
  {
    chunk.web.Some? && chunk.web.value.uri == uri
  }

  /** Every chunk has a web part and no two share a uri. */
  ghost predicate DistinctWebChunks(u: seq<GroundingChunk>)
  {
    && (forall k :: 0 <= k < |u| ==> u[k].web.Some?)
    && (forall k, l :: 0 <= k < l < |u| ==> !UriIs(u[l], u[k].web.value.uri))
  }

  /** The chunks kept among the first `n`, as a set. */
  ghost function KeptChunkSet(sources: seq<GroundingChunk>, n: nat): set<GroundingChunk>
    requires n <= |sources|
  {
    set i | 0 <= i < n && Kept(sources, i) :: sources[i]
  }

  /** Every chunk is a kept chunk among the first `n`. */
  ghost predicate FromKeptChunks(u: seq<GroundingChunk>, sources: seq<GroundingChunk>, n: nat)
    requires n <= |sources|
  {
    forall k :: 0 <= k < |u| ==> u[k] in KeptChunkSet(sources, n)
  }

  /** Every uri among the first `n` chunks is the uri of a chunk of `u`. */
  ghost predicate CoversUris(u: seq<GroundingChunk>, sources: seq<GroundingChunk>, n: nat)
    requires n <= |sources|
  {
    forall j :: 0 <= j < n && sources[j].web.Some? ==> exists k :: 0 <= k < |u| && UriIs(u[k], sources[j].web.value.uri)
  }

  lemma KeptAmongDistinct(sources: seq<GroundingChunk>, n: nat)
    requires n <= |sources|
    ensures DistinctWebChunks(KeptAmong(sources, n))
  {
    KeptIndicesWitness(sources, n);
    var u := KeptAmong(sources, n);
    var ix := KeptIndices(sources, n);
    forall k, l | 0 <= k < l < |u| ensures !UriIs(u[l], u[k].web.value.uri) {
      assert ix[k] < ix[l] && Kept(sources, ix[l]);
      assert u[k] == sources[ix[k]] && u[l] == sources[ix[l]];
    }
  }

  lemma KeptAmongFromKept(sources: seq<GroundingChunk>, n: nat)
    requires n <= |sources|
    ensures FromKeptChunks(KeptAmong(sources, n), sources, n)
  {
    KeptIndicesWitness(sources, n);
    var u := KeptAmong(sources, n);
    var ix := KeptIndices(sources, n);
    forall k | 0 <= k < |u| ensures u[k] in KeptChunkSet(sources, n) {
      var i := ix[k];
      assert 0 <= i < n && Kept(sources, i) && u[k] == sources[i];
    }
  }

  /** What de-duplication keeps: only web chunks, at most one per uri, the
      first chunk of each uri, and every uri that occurs. */
  lemma KeptAmongProperties(sources: seq<GroundingChunk>, n: nat)
    requires n <= |sources|
    ensures DistinctWebChunks(KeptAmong(sources, n))
    ensures FromKeptChunks(KeptAmong(sources, n), sources, n)
    ensures CoversUris(KeptAmong(sources, n), sources, n)
  {
    KeptAmongDistinct(sources, n);
    KeptAmongFromKept(sources, n);
    forall j | 0 <= j < n && sources[j].web.Some?
      ensures exists k :: 0 <= k < |KeptAmong(sources, n)| && UriIs(KeptAmong(sources, n)[k], sources[j].web.value.uri)
    {
      KeptAmongCoversUris(sources, n, j);
    }
  }

  /** The order of the kept chunks is the order they arrived in. */
  lemma KeptAmongInOrder(sources: seq<GroundingChunk>, n: nat, k: int, l: int)
    requires n <= |sources|
    requires 0 <= k < l < |KeptAmong(sources, n)|
    ensures exists i, j :: 0 <= i < j < n && KeptAmong(sources, n)[k] == sources[i] && KeptAmong(sources, n)[l] == sources[j]
  {
    KeptIndicesWitness(sources, n);
    var ix := KeptIndices(sources, n);
    assert ix[k] < ix[l] && KeptAmong(sources, n)[k] == sources[ix[k]] && KeptAmong(sources, n)[l] == sources[ix[l]];
  }

  // ---------------------------------------------------------------------------
  // Quick actions

  /** `${topic?.title}`: a missing topic prints as "undefined". */
  function TitleText(topic: Option<RoadmapTopic>): string
  {
    match topic
    case Some(t) => t.title
    case None => "undefined"
  }

  /** The question a quick action asks; an unknown action asks the empty
      question. */
  function QuickActionQuestion(action: string, topic: Option<RoadmapTopic>): (q: string)
    ensures action !in ["explain", "resources", "plan", "quiz"] <==> q == ""
  {
    var title := TitleText(topic);
    if action == "explain" then "Explain the topic \"" + title + "\" in simple terms."
    else if action == "resources" then "What are the best free resources for learning about \"" + title + "\"?"
    else if action == "plan" then "Give me a mini study plan for \"" + title + "\"."
    else if action == "quiz" then "Quiz me on \"" + title + "\" with one multiple choice question."
    else ""
  }

  /** The four quick-action questions are never blank, and an unknown action
      is; the guard in front of a request ignores exactly the latter. */
  lemma QuickActionBlankIffUnknown(action: string, topic: Option<RoadmapTopic>)
    ensures Blank(QuickActionQuestion(action, topic)) <==> action !in ["explain", "resources", "plan", "quiz"]
  {
    var q := QuickActionQuestion(action, topic);
    var title := TitleText(topic);
    if action == "explain" {
      assert q == "Explain the topic \"" + title + "\" in simple terms.";
      assert q[0] == 'E';
    } else if action == "resources" {
      assert q == "What are the best free resources for learning about \"" + title + "\"?";
      var suffix := "\"?";
      assert q == ("What are the best free resources for learning about \"" + title) + suffix;
      assert q[|q| - 1] == suffix[1] == '?';
    } else if action == "plan" {
      assert q == "Give me a mini study plan for \"" + title + "\".";
      assert q[0] == 'G';
    } else if action == "quiz" {
      assert q == "Quiz me on \"" + title + "\" with one multiple choice question.";
      assert q[0] == 'Q';
    }
  }

  // ---------------------------------------------------------------------------
  // The panel

  /** The messages a reply adds after the user's message. A complete stream
      gives one model message with the whole text and the de-duplicated
      sources; a failure adds the fixed error reply, after the partial model
      message if the stream had started. */
  function ReplyMessages(reply: Reply, useProModel: bool): (ms: seq<ChatMessage>)
    ensures reply.FailedBeforeStream? ==> ms == [ChatMessage(Model, ERROR_REPLY, None)]
    ensures reply.FailedMidStream? ==>
      ms == [ChatMessage(Model, Concatenation(reply.received), Some([])), ChatMessage(Model, ERROR_REPLY, None)]
    ensures reply.Streamed? ==> |ms| == 1 && ms[0].speaker == Model && ms[0].text == Concatenation(reply.fragments)
  {
    match reply
    case FailedBeforeStream => [ChatMessage(Model, ERROR_REPLY, None)]
    case FailedMidStream(received) =>
      [ChatMessage(Model, Concatenation(received), Some([])), ChatMessage(Model, ERROR_REPLY, None)]
    case Streamed(fs) =>
      var gathered := if useProModel then [] else Grounding(fs);
      [ChatMessage(Model, Concatenation(fs), Some(KeptAmong(gathered, |gathered|)))]
  }

  /** The sources a fast-model reply lists are its grounding chunks after
      de-duplication: web chunks only, one per uri, each the first chunk with
      its uri, and no uri of the stream left out. */
  lemma StreamedSourcesAreDeduplicated(fs: seq<Fragment>)
    ensures var sources := ReplyMessages(Streamed(fs), false)[0].sources;
      var gathered := Grounding(fs);
      && sources.Some?
      && DistinctWebChunks(sources.value)
      && FromKeptChunks(sources.value, gathered, |gathered|)
      && CoversUris(sources.value, gathered, |gathered|)
  {
    var gathered := Grounding(fs);
    KeptAmongProperties(gathered, |gathered|);
  }

  /** The pro model cites nothing. */
  lemma ProModelHasNoSources(fs: seq<Fragment>)
    ensures ReplyMessages(Streamed(fs), true)[0].sources == Some([])
  {
  }

  class MentorPanel {
    var messages: seq<ChatMessage>
    var input: string
    var isLoading: bool

    constructor()
      ensures messages == [] && input == "" && !isLoading
    {
      messages := [];
      input := "";
      isLoading := false;
    }

    /** Opening the panel, or switching topic while open, clears the chat. */
    method Open()
      modifies this
      ensures messages == [] && input == old(input) && isLoading == old(isLoading)
    {
      messages := [];
    }

    /** `sendMessage`. A blank question, or one sent while a request is
        outstanding, changes nothing. Otherwise the user's message is added
        and the input cleared; if the prompt cannot be built the request
        never starts and the panel stays loading; else the reply's messages
        are added and loading ends. */
    method Send(question: string, useProModel: bool, role: Option<Role>, topic: Option<RoadmapTopic>,
                answers: Answers, progress: Progress, reply: Reply) returns (prompt: Option<Prompt>)
      modifies this
      ensures Blank(question) || old(isLoading) ==>
        messages == old(messages) && input == old(input) && isLoading == old(isLoading) && prompt.None?
      ensures !Blank(question) && !old(isLoading) ==>
        && input == ""
        && prompt == BuildContext(question, role, topic, answers, progress)
        && (prompt.None? ==> messages == old(messages) + [ChatMessage(User, question, None)] && isLoading)
        && (prompt.Some? ==>
              messages == old(messages) + [ChatMessage(User, question, None)] + ReplyMessages(reply, useProModel)
              && !isLoading)
    {
      if Blank(question) || isLoading {
        return None;
      }
      messages := messages + [ChatMessage(User, question, None)];
      input := "";
      isLoading := true;
      prompt := BuildContext(question, role, topic, answers, progress);
      if prompt.None? {
        return;
      }
      match reply {
        case FailedBeforeStream =>
          messages := messages + [ChatMessage(Model, ERROR_REPLY, None)];
        case FailedMidStream(received) =>
          var text, _ := ReadStream(received, useProModel);
          messages := messages + [ChatMessage(Model, text, Some([])), ChatMessage(Model, ERROR_REPLY, None)];
        case Streamed(fs) =>
          var text, sources := ReadStream(fs, useProModel);
          var unique := DedupSources(sources);
          messages := messages + [ChatMessage(Model, text, Some(unique))];
      }
      isLoading := false;
    }

    /** A quick-action button: its question goes through `Send`, always to
        the fast model. */
    method QuickAction(action: string, role: Option<Role>, topic: Option<RoadmapTopic>,
                       answers: Answers, progress: Progress, reply: Reply) returns (prompt: Option<Prompt>)
      modifies this
      ensures action !in ["explain", "resources", "plan", "quiz"] || old(isLoading) ==>
        messages == old(messages) && input == old(input) && isLoading == old(isLoading) && prompt.None?
      ensures action in ["explain", "resources", "plan", "quiz"] && !old(isLoading) ==>
        && input == ""
        && prompt == BuildContext(QuickActionQuestion(action, topic), role, topic, answers, progress)
        && (prompt.None? ==>
              messages == old(messages) + [ChatMessage(User, QuickActionQuestion(action, topic), None)] && isLoading)
        && (prompt.Some? ==>
              messages == old(messages) + [ChatMessage(User, QuickActionQuestion(action, topic), None)]
                          + ReplyMessages(reply, false)
              && !isLoading)
    {
      var question := QuickActionQuestion(action, topic);
      QuickActionBlankIffUnknown(action, topic);
      prompt := Send(question, false, role, topic, answers, progress, reply);
    }
  }
}
