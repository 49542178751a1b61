/** The per-message protocol of the websocket endpoint: how one inbound text
    is sorted into a `/use` control command or a chat prompt, which handler a
    prompt goes to, the sticky failover from OpenAI to Ollama, and the reply
    frames each path sends. `Step` is one turn of the receive loop; `Session`
    folds it over the texts a connection receives. */
module Protocol {
  import opened Text
  import opened Handlers

  const UsePrefix: string := "/use "
  const InvalidProviderNotice: string := ErrorMark + " Invalid provider. Use /use openai or /use ollama."
  const AssistantPrefix: string := "assistant: "
  const FailoverPrefix: string := "⚠️ OpenAI failed, switched to OLLAMA. ("
  const SwitchedPrefix: string := "🔄 Switched to "

  /** The reply to an accepted `/use` command. */
  function SwitchedNotice(name: string): string {
    SwitchedPrefix + Upper(name) + " mode."
  }

  /** The notice sent when the OpenAI handler raised `e`. */
  function FailoverNotice(detail: string): string {
    FailoverPrefix + detail + ")"
  }

  /** The reply carrying a handler's response. */
  function AssistantReply(v: PyValue): string {
    AssistantPrefix + Str(v)
  }

  /** The frame sent right after a connection is registered. */
  function Greeting(provider: string): string {
    "✅ Connected. Current provider: " + Upper(provider)
  }

  predicate IsCommand(text: string) {
    StartsWith(text, UsePrefix)
  }

  /** `data.replace("/use ", "").strip().lower()`: a name no longer than
      the text, without whitespace at its ends and without upper case. */
  function ParseCommand(text: string): (name: string)
    ensures |name| <= |text|
    ensures name != [] ==> !IsSpace(name[0]) && !IsSpace(name[|name| - 1])
    ensures forall i :: 0 <= i < |name| ==> !('A' <= name[i] <= 'Z')
  {
    StripSpec(RemoveAll(text, UsePrefix));
    Lower(Strip(RemoveAll(text, UsePrefix)))
  }

  /** The membership test `new_provider in ["openai", "ollama"]`. */
  predicate KnownProvider(name: string) {
    name == "openai" || name == "ollama"
  }

  /** A handler invocation with the prompt it was given. `contacted` says
      whether the OpenAI request was actually sent (it is not when the key
      check fails); the Ollama handler always posts to the daemon. */
  datatype Call = OpenAICall(prompt: string, contacted: bool) | OllamaCall(prompt: string)

  /** One inbound text, with what each provider would do if asked about it. */
  datatype Inbound = Inbound(text: string, openai: OpenAIOutcome, ollama: OllamaOutcome)

  /** The provider after a stretch of the loop, the frames sent and the
      handler invocations made, in order. */
  datatype Turn = Turn(provider: string, replies: seq<string>, calls: seq<Call>)

  /** True iff `m` is a `/use` command that selects `name`. */
  predicate SelectsProvider(m: Inbound, name: string) {
    IsCommand(m.text) && ParseCommand(m.text) == name && KnownProvider(name)
  }

  /** One iteration of the receive loop, starting from `provider`. */
  function Step(apiKey: Option<string>, provider: string, m: Inbound): (t: Turn)
  {
    if IsCommand(m.text) then
      var name := ParseCommand(m.text);
      if KnownProvider(name) then Turn(name, [SwitchedNotice(name)], [])
      else Turn(provider, [InvalidProviderNotice], [])
    else if provider == "openai" then
      var first := OpenAICall(m.text, KeyConfigured(apiKey));
      match OpenAIHandler(apiKey, m.openai)
      case Success(v) => Turn(provider, [AssistantReply(v)], [first])
      case Failure(e) =>
        Turn("ollama", [FailoverNotice(Message(e)), AssistantReply(OllamaHandler(m.ollama))],
             [first, OllamaCall(m.text)])
    else
      Turn(provider, [AssistantReply(OllamaHandler(m.ollama))], [OllamaCall(m.text)])
  }

  /** A `/use ` text gets exactly one reply and reaches no handler. The
      provider becomes the parsed name when that is `openai` or `ollama`,
      and is left alone otherwise. */
  lemma CommandStep(apiKey: Option<string>, provider: string, m: Inbound)
    requires IsCommand(m.text)
    ensures var t := Step(apiKey, provider, m); var name := ParseCommand(m.text);
      && t.calls == []
      && (KnownProvider(name) ==> t.provider == name && t.replies == [SwitchedNotice(name)])
      && (!KnownProvider(name) ==> t.provider == provider && t.replies == [InvalidProviderNotice])
  {
  }

  /** A prompt goes to the OpenAI handler iff the provider is exactly
      `openai`, and to Ollama for every other value. Each handler gets the
      prompt unchanged, and the last frame is the `assistant: ` answer,
      preceded by at most one other frame. */
  lemma PromptStep(apiKey: Option<string>, provider: string, m: Inbound)
    requires !IsCommand(m.text)
    ensures var t := Step(apiKey, provider, m);
      && 1 <= |t.calls| == |t.replies| <= 2
      && (t.calls[0].OpenAICall? <==> provider == "openai")
      && (forall c :: c in t.calls ==> c.prompt == m.text)
      && StartsWith(t.replies[|t.replies| - 1], AssistantPrefix)
    ensures provider != "openai" ==>
      Step(apiKey, provider, m) == Turn(provider, [AssistantReply(OllamaHandler(m.ollama))], [OllamaCall(m.text)])
  {
    var t := Step(apiKey, provider, m);
    assert StartsWith(AssistantPrefix + Str(OllamaHandler(m.ollama)), AssistantPrefix);
    if provider == "openai" && OpenAIHandler(apiKey, m.openai).Success? {
      assert StartsWith(AssistantPrefix + Str(OpenAIHandler(apiKey, m.openai).value), AssistantPrefix);
    }
  }

  /** On `openai`, a prompt the handler answers keeps the provider; one it
      raises on switches the provider to `ollama`, sends the notice with the
      exception text, and retries the same prompt on Ollama. The OpenAI
      request is only sent when the key is configured. */
  lemma OpenAIStep(apiKey: Option<string>, m: Inbound)
    requires !IsCommand(m.text)
    ensures var t := Step(apiKey, "openai", m); var r := OpenAIHandler(apiKey, m.openai);
      && t.calls[0] == OpenAICall(m.text, KeyConfigured(apiKey))
      && (r.Success? ==> t == Turn("openai", [AssistantReply(r.value)], [t.calls[0]]))
      && (r.Failure? ==> t == Turn("ollama",
            [FailoverNotice(Message(r.error)), AssistantReply(OllamaHandler(m.ollama))],
            [t.calls[0], OllamaCall(m.text)]))
  {
  }

  /** The provider changes only through an accepted `/use` command or a
      failover from `openai` to `ollama`. */
  lemma ProviderChanges(apiKey: Option<string>, provider: string, m: Inbound)
    ensures var t := Step(apiKey, provider, m);
      t.provider != provider ==>
        SelectsProvider(m, t.provider)
        || (provider == "openai" && t.provider == "ollama" && OpenAIHandler(apiKey, m.openai).Failure?)
  {
  }

  /** Runs `later` after `earlier`: frames and calls are concatenated. */
  function Then(earlier: Turn, later: Turn): Turn {
    Turn(later.provider, earlier.replies + later.replies, earlier.calls + later.calls)
  }

  /** The receive loop over `msgs`, in order, starting from `provider`. */
  function Session(apiKey: Option<string>, provider: string, msgs: seq<Inbound>): (t: Turn)
    ensures t.provider == provider || KnownProvider(t.provider)
    ensures |msgs| <= |t.replies| <= 2 * |msgs|
    ensures |t.calls| <= |t.replies|
    decreases |msgs|
  {
    if msgs == [] then Turn(provider, [], [])
    else
      var before := Session(apiKey, provider, msgs[..|msgs| - 1]);
      StepShape(apiKey, before.provider, msgs[|msgs| - 1]);
      Then(before, Step(apiKey, before.provider, msgs[|msgs| - 1]))
  }

  /** One turn sends one or two frames, calls no more handlers than it
      sends frames, and leaves the provider alone or on a known one. */
  lemma StepShape(apiKey: Option<string>, provider: string, m: Inbound)
    ensures var t := Step(apiKey, provider, m);
      && (t.provider == provider || KnownProvider(t.provider))
      && 1 <= |t.replies| <= 2 && |t.calls| <= |t.replies|
  {
  }

  /** The loop over `a + b` is the loop over `a` followed by the loop over
      `b`, started from the provider `a` left behind. */
  lemma {:induction false} SessionAppend(apiKey: Option<string>, provider: string, a: seq<Inbound>, b: seq<Inbound>)
    ensures var first := Session(apiKey, provider, a);
      Session(apiKey, provider, a + b) == Then(first, Session(apiKey, first.provider, b))
    decreases |b|
  {
    var first := Session(apiKey, provider, a);
    if b == [] {
      assert a + b == a;
      assert first.replies + [] == first.replies && first.calls + [] == first.calls;
    } else {
      var n := |b| - 1;
      SplitLast(a, b);
      SessionAppend(apiKey, provider, a, b[..n]);
      var mid := Session(apiKey, first.provider, b[..n]);
      SessionLast(apiKey, provider, a + b, a + b[..n], b[n]);
      SessionLast(apiKey, first.provider, b, b[..n], b[n]);
      ThenAssociative(first, mid, Step(apiKey, mid.provider, b[n]));
    }
  }

  /** Splitting off the last message of `b`, alone and after `a`. */
  lemma SplitLast(a: seq<Inbound>, b: seq<Inbound>)
    requires |b| > 0
    ensures b == b[..|b| - 1] + [b[|b| - 1]]
    ensures a + b == (a + b[..|b| - 1]) + [b[|b| - 1]]
  {
  }

  /** The fold's last step, for a sequence given as `init + [m]`. */
  lemma SessionLast(apiKey: Option<string>, provider: string, msgs: seq<Inbound>, init: seq<Inbound>, m: Inbound)
    requires msgs == init + [m]
    ensures var before := Session(apiKey, provider, init);
      Session(apiKey, provider, msgs) == Then(before, Step(apiKey, before.provider, m))
  {
    assert msgs[..|msgs| - 1] == init;
  }

  lemma ThenAssociative(x: Turn, y: Turn, z: Turn)
    ensures Then(Then(x, y), z) == Then(x, Then(y, z))
  {
    assert (x.replies + y.replies) + z.replies == x.replies + (y.replies + z.replies);
    assert (x.calls + y.calls) + z.calls == x.calls + (y.calls + z.calls);
  }

  /** On `ollama`, a text that does not select OpenAI keeps the provider and
      calls the Ollama handler only. */
  lemma OllamaStep(apiKey: Option<string>, m: Inbound)
    requires !SelectsProvider(m, "openai")
    ensures var t := Step(apiKey, "ollama", m);
      t.provider == "ollama" && forall c :: c in t.calls ==> c.OllamaCall?
  {
    if IsCommand(m.text) {
      CommandStep(apiKey, "ollama", m);
    } else {
      PromptStep(apiKey, "ollama", m);
    }
  }

  /** Once on Ollama, the loop stays on Ollama and calls only the Ollama
      handler until some text selects OpenAI again. */
  lemma {:induction false} StaysOnOllama(apiKey: Option<string>, msgs: seq<Inbound>)
    requires forall i :: 0 <= i < |msgs| ==> !SelectsProvider(msgs[i], "openai")
    ensures Session(apiKey, "ollama", msgs).provider == "ollama"
    ensures forall c :: c in Session(apiKey, "ollama", msgs).calls ==> c.OllamaCall?
    decreases |msgs|
  {
    if msgs != [] {
      var n := |msgs| - 1;
      StaysOnOllama(apiKey, msgs[..n]);
      OllamaStep(apiKey, msgs[n]);
    }
  }

  /** `FailoverIsSticky` for a failure on the first text of the loop. */
  lemma {:induction false} FailoverFromStart(apiKey: Option<string>, msgs: seq<Inbound>)
    requires |msgs| >= 1 && !IsCommand(msgs[0].text) && OpenAIHandler(apiKey, msgs[0].openai).Failure?
    requires forall i :: 1 <= i < |msgs| ==> !SelectsProvider(msgs[i], "openai")
    ensures var t := Session(apiKey, "openai", msgs);
      && |t.replies| >= 2 && |t.calls| >= 2
      && t.provider == "ollama"
      && t.replies[0] == FailoverNotice(Message(OpenAIHandler(apiKey, msgs[0].openai).error))
      && t.replies[1] == AssistantReply(OllamaHandler(msgs[0].ollama))
      && t.calls[0] == OpenAICall(msgs[0].text, KeyConfigured(apiKey))
      && t.calls[1] == OllamaCall(msgs[0].text)
      && forall i :: 1 <= i < |t.calls| ==> t.calls[i].OllamaCall?
    decreases |msgs|
  {
    var n := |msgs| - 1;
    if n == 0 {
      assert msgs[..0] == [];
      OpenAIStep(apiKey, msgs[0]);
    } else {
      FailoverFromStart(apiKey, msgs[..n]);
      var before := Session(apiKey, "openai", msgs[..n]);
      OllamaStep(apiKey, msgs[n]);
      var s := Step(apiKey, "ollama", msgs[n]);
      var t := Then(before, s);
      forall i | 1 <= i < |t.calls| ensures t.calls[i].OllamaCall? {
        if i >= |before.calls| { assert t.calls[i] in s.calls; }
      }
    }
  }

  /** Whatever texts `pre` came first: once the provider is `openai` and a
      prompt fails there, the frames and calls so far are kept, the
      failover notice is sent, the same prompt is answered from Ollama,
      and every later call goes to Ollama until a `/use openai`. */
  lemma FailoverIsSticky(apiKey: Option<string>, provider: string, pre: seq<Inbound>, msgs: seq<Inbound>)
    requires Session(apiKey, provider, pre).provider == "openai"
    requires |msgs| >= 1 && !IsCommand(msgs[0].text) && OpenAIHandler(apiKey, msgs[0].openai).Failure?
    requires forall i :: 1 <= i < |msgs| ==> !SelectsProvider(msgs[i], "openai")
    ensures var before := Session(apiKey, provider, pre);
      var t := Session(apiKey, provider, pre + msgs);
      var k := |before.replies|;
      var c := |before.calls|;
      && t.provider == "ollama"
      && |t.replies| >= k + 2 && |t.calls| >= c + 2
      && t.replies[..k] == before.replies && t.calls[..c] == before.calls
      && t.replies[k] == FailoverNotice(Message(OpenAIHandler(apiKey, msgs[0].openai).error))
      && t.replies[k + 1] == AssistantReply(OllamaHandler(msgs[0].ollama))
      && t.calls[c] == OpenAICall(msgs[0].text, KeyConfigured(apiKey))
      && t.calls[c + 1] == OllamaCall(msgs[0].text)
      && forall i :: c + 1 <= i < |t.calls| ==> t.calls[i].OllamaCall?
  {
    var before := Session(apiKey, provider, pre);
    SessionAppend(apiKey, provider, pre, msgs);
    FailoverFromStart(apiKey, msgs);
    ThenKeepsEarlier(before, Session(apiKey, "openai", msgs));
  }

  /** Running one stretch after another keeps the first stretch's frames
      and calls in front and puts the second's behind them, in order. */
  lemma ThenKeepsEarlier(earlier: Turn, later: Turn)
    ensures var t := Then(earlier, later);
      && |t.replies| == |earlier.replies| + |later.replies|
      && |t.calls| == |earlier.calls| + |later.calls|
      && t.replies[..|earlier.replies|] == earlier.replies
      && t.calls[..|earlier.calls|] == earlier.calls
      && (forall i :: 0 <= i < |later.replies| ==> t.replies[|earlier.replies| + i] == later.replies[i])
      && (forall i :: 0 <= i < |later.calls| ==> t.calls[|earlier.calls| + i] == later.calls[i])
  {
  }

  /** The number of frames that start with the assistant marker. */
  function AssistantCount(replies: seq<string>): nat {
    if replies == [] then 0
    else AssistantCount(replies[..|replies| - 1]) + (if StartsWith(replies[|replies| - 1], AssistantPrefix) then 1 else 0)
  }

  /** The number of texts that are prompts rather than commands. */
  function PromptCount(msgs: seq<Inbound>): nat {
    if msgs == [] then 0
    else PromptCount(msgs[..|msgs| - 1]) + (if IsCommand(msgs[|msgs| - 1].text) then 0 else 1)
  }

  lemma {:induction false} AssistantCountAppend(a: seq<string>, b: seq<string>)
    ensures AssistantCount(a + b) == AssistantCount(a) + AssistantCount(b)
    decreases |b|
  {
    if b == [] {
      assert a + b == a;
    } else {
      var n := |b| - 1;
      assert (a + b)[..|a + b| - 1] == a + b[..n];
      assert (a + b)[|a + b| - 1] == b[n];
      AssistantCountAppend(a, b[..n]);
      assert AssistantCount(a + b) == AssistantCount(a + b[..n]) + (if StartsWith(b[n], AssistantPrefix) then 1 else 0);
    }
  }

  /** Control frames never start with the assistant marker. */
  lemma NoticesAreNotAnswers(name: string, detail: string)
    ensures !StartsWith(SwitchedNotice(name), AssistantPrefix)
    ensures !StartsWith(FailoverNotice(detail), AssistantPrefix)
    ensures !StartsWith(InvalidProviderNotice, AssistantPrefix)
  {
    assert SwitchedNotice(name)[0] == SwitchedPrefix[0];
    NotAnAnswer(SwitchedNotice(name));
    assert FailoverNotice(detail)[0] == FailoverPrefix[0];
    NotAnAnswer(FailoverNotice(detail));
    assert InvalidProviderNotice[0] == ErrorMark[0];
    NotAnAnswer(InvalidProviderNotice);
  }

  lemma NotAnAnswer(frame: string)
    requires frame != [] && frame[0] != AssistantPrefix[0]
    ensures !StartsWith(frame, AssistantPrefix)
  {
    if |AssistantPrefix| <= |frame| {
      assert frame[..|AssistantPrefix|][0] == frame[0];
    }
  }

  lemma CountOne(x: string)
    ensures AssistantCount([x]) == if StartsWith(x, AssistantPrefix) then 1 else 0
  {
    assert [x][..0] == [];
  }

  lemma CountTwo(x: string, y: string)
    ensures AssistantCount([x, y]) == AssistantCount([x]) + if StartsWith(y, AssistantPrefix) then 1 else 0
  {
    assert [x, y][..1] == [x];
  }

  /** One turn sends one `assistant: ` frame for a prompt and none for a
      command. */
  lemma StepAnswers(apiKey: Option<string>, provider: string, m: Inbound)
    ensures AssistantCount(Step(apiKey, provider, m).replies) == if IsCommand(m.text) then 0 else 1
  {
    var s := Step(apiKey, provider, m);
    if IsCommand(m.text) {
      CommandStep(apiKey, provider, m);
      NoticesAreNotAnswers(ParseCommand(m.text), "");
      assert s.replies == [s.replies[0]];
      CountOne(s.replies[0]);
    } else {
      PromptStep(apiKey, provider, m);
      if |s.replies| == 1 {
        assert s.replies == [s.replies[0]];
        CountOne(s.replies[0]);
      } else {
        OpenAIStep(apiKey, m);
        NoticesAreNotAnswers("", Message(OpenAIHandler(apiKey, m.openai).error));
        assert s.replies == [s.replies[0], s.replies[1]];
        CountTwo(s.replies[0], s.replies[1]);
        CountOne(s.replies[0]);
      }
    }
  }

  /** Every prompt is answered by exactly one `assistant: ` frame, and no
      command is. */
  lemma {:induction false} OneAnswerPerPrompt(apiKey: Option<string>, provider: string, msgs: seq<Inbound>)
    ensures AssistantCount(Session(apiKey, provider, msgs).replies) == PromptCount(msgs)
    decreases |msgs|
  {
    if msgs != [] {
      var n := |msgs| - 1;
      OneAnswerPerPrompt(apiKey, provider, msgs[..n]);
      var before := Session(apiKey, provider, msgs[..n]);
      StepAnswers(apiKey, before.provider, msgs[n]);
      AssistantCountAppend(before.replies, Step(apiKey, before.provider, msgs[n]).replies);
    }
  }

  // ------------------------------------------------------------ parsing

  /** A `/use ` followed by an argument that holds no further `/use `
      parses to the argument, stripped and lower-cased. */
  lemma ParseCommandArgument(arg: string)
    requires forall i :: 0 <= i < |arg| ==> !OccursAt(arg, UsePrefix, i)
    ensures ParseCommand(UsePrefix + arg) == Lower(Strip(arg))
  {
    RemoveAllLeading(UsePrefix, arg);
    RemoveAllAbsent(arg, UsePrefix);
  }

  /** A name made of lower-case letters parses to itself after one or two
      `/use ` prefixes, with any whitespace padding. */
  lemma {:induction false} ParseLowerName(pre: string, name: string, post: string)
    requires name != [] && forall i :: 0 <= i < |name| ==> 'a' <= name[i] <= 'z'
    requires AllSpace(pre) && AllSpace(post)
    ensures ParseCommand(UsePrefix + pre + name + post) == name
    ensures ParseCommand(UsePrefix + UsePrefix + pre + name + post) == name
  {
    var arg := pre + name + post;
    PaddedNameHasNoPrefix(pre, name, post);
    assert ParseCommand(UsePrefix + arg) == name by {
      ParseCommandArgument(arg);
      StripPadded(pre, name, post);
      NormalName(name);
    }
    Regroup(UsePrefix, pre, name, post);
    RemoveAllLeading(UsePrefix, UsePrefix + arg);
  }

  /** A padded lower-case name holds no `/`, so no `/use ` occurs in it. */
  lemma PaddedNameHasNoPrefix(pre: string, name: string, post: string)
    requires forall i :: 0 <= i < |name| ==> 'a' <= name[i] <= 'z'
    requires AllSpace(pre) && AllSpace(post)
    ensures forall i :: 0 <= i < |pre + name + post| ==> !OccursAt(pre + name + post, UsePrefix, i)
  {
    var arg := pre + name + post;
    forall i | 0 <= i < |arg| ensures !OccursAt(arg, UsePrefix, i) {
      if i < |pre| {
        assert arg[i] == pre[i] && IsSpace(pre[i]);
      } else if i < |pre| + |name| {
        assert arg[i] == name[i - |pre|];
      } else {
        assert arg[i] == post[i - |pre| - |name|] && IsSpace(post[i - |pre| - |name|]);
      }
      NotOccursAtHead(arg, UsePrefix, i);
    }
  }

  /** The prefixes and the argument, grouped as the parser reads them. */
  lemma Regroup(p: string, a: string, b: string, c: string)
    ensures p + a + b + c == p + (a + b + c)
    ensures p + p + a + b + c == p + (p + (a + b + c))
  {
  }

  /** Every `/use ` is removed, not only the leading one: `/use /use ollama`
      selects Ollama. */
  lemma ParseRepeatedPrefix()
    ensures ParseCommand("/use /use ollama") == "ollama"
  {
    var name := "ollama";
    assert "/use /use ollama" == UsePrefix + UsePrefix + [] + name + [];
    assert ParseCommand(UsePrefix + UsePrefix + [] + name + []) == name by {
      ParseLowerName([], name, []);
    }
  }
  /** The removal is not limited to the front: a `/use ` in the middle of
      the argument is cut out as well, so `/use ol/use lama` selects
      Ollama. */
  lemma ParseInnerPrefix()
    ensures ParseCommand("/use ol/use lama") == "ollama"
  {
    InnerPrefixRemoved();
    NormalName("ollama");
  }

  /** A name of lower-case letters is left alone by `strip().lower()`. */
  lemma NormalName(name: string)
    requires name != [] && forall i :: 0 <= i < |name| ==> 'a' <= name[i] <= 'z'
    ensures Strip(name) == name && Lower(name) == name
  {
    assert Strip(name) == name by {
      LetterNotSpace(name[0]);
      LetterNotSpace(name[|name| - 1]);
      StripPadded([], name, []);
      assert [] + name + [] == name;
    }
    assert Lower(name) == name by {
      LowerFixed(name);
    }
  }

  /** A lower-case ASCII letter is not whitespace. */
  lemma LetterNotSpace(c: char)
    requires 'a' <= c <= 'z'
    ensures !IsSpace(c)
  {
  }

  lemma InnerPrefixRemoved()
    ensures RemoveAll("/use ol/use lama", UsePrefix) == "ollama"
  {
    var a, b := "ol", "lama";
    RemoveSlashFree(a, b);
    RemoveAllLeading(UsePrefix, a + UsePrefix + b);
    assert "/use ol/use lama" == UsePrefix + (a + UsePrefix + b);
  }

  /** With no `/` around it, a single `/use ` is cut out and nothing else. */
  lemma RemoveSlashFree(a: string, b: string)
    requires forall i :: 0 <= i < |a| ==> a[i] != '/'
    requires forall i :: 0 <= i < |b| ==> b[i] != '/'
    ensures RemoveAll(a + UsePrefix + b, UsePrefix) == a + b
  {
    var s := a + UsePrefix + b;
    assert UsePrefix[0] == '/';
    forall i | 0 <= i < |a| ensures !OccursAt(s, UsePrefix, i) {
      assert s[i] == a[i];
      NotOccursAtHead(s, UsePrefix, i);
    }
    RemoveAllFirstOccurrence(a, UsePrefix, b);
    forall i | 0 <= i < |b| ensures !OccursAt(b, UsePrefix, i) {
      NotOccursAtHead(b, UsePrefix, i);
    }
    RemoveAllAbsent(b, UsePrefix);
  }

  /** `/use ollama` is a command that selects Ollama. */
  lemma UseOllamaSelects()
    ensures IsCommand("/use ollama") && ParseCommand("/use ollama") == "ollama"
  {
    var text := "/use ollama";
    var name := "ollama";
    assert text == UsePrefix + [] + name + [];
    ParseLowerName([], name, []);
    assert text[..|UsePrefix|] == UsePrefix;
  }

  /** Two texts are two steps, the second from where the first left off. */
  lemma SessionOfTwo(apiKey: Option<string>, provider: string, a: Inbound, b: Inbound)
    ensures var first := Step(apiKey, provider, a);
      Session(apiKey, provider, [a, b]) == Then(first, Step(apiKey, first.provider, b))
  {
    assert [a, b][..1] == [a];
    assert [a][..0] == [];
    assert Session(apiKey, provider, [a]) == Step(apiKey, provider, a);
  }

  /** A command selecting Ollama, such as `/use ollama`, followed by a
      prompt: the prompt is answered from Ollama alone, whatever OpenAI
      would have done and whatever the provider was before. */
  lemma SwitchThenPrompt(apiKey: Option<string>, provider: string, command: Inbound, prompt: Inbound)
    requires SelectsProvider(command, "ollama") && !IsCommand(prompt.text)
    ensures Session(apiKey, provider, [command, prompt]) ==
      Turn("ollama", [SwitchedNotice("ollama"), AssistantReply(OllamaHandler(prompt.ollama))], [OllamaCall(prompt.text)])
  {
    var first := Step(apiKey, provider, command);
    var second := Step(apiKey, "ollama", prompt);
    SwitchByOtherConnection(apiKey, provider, command, prompt);
    CommandStep(apiKey, provider, command);
    assert Session(apiKey, provider, [command, prompt]) == Then(first, second) by {
      SessionOfTwo(apiKey, provider, command, prompt);
    }
    ThenOfTwo(first, second);
  }

  /** Two turns of one frame each, the first calling no handler. */
  lemma ThenOfTwo(x: Turn, y: Turn)
    requires |x.replies| == 1 && x.calls == [] && |y.replies| == 1
    ensures Then(x, y) == Turn(y.provider, [x.replies[0], y.replies[0]], y.calls)
  {
    assert x.calls + y.calls == y.calls;
  }

  /** All connections share the provider. When another connection's
      command selecting Ollama, such as `/use ollama`, is handled between
      two texts of this one, this connection's next prompt goes to Ollama
      alone, whatever the provider was before. */
  lemma SwitchByOtherConnection(apiKey: Option<string>, provider: string, theirs: Inbound, next: Inbound)
    requires SelectsProvider(theirs, "ollama") && !IsCommand(next.text)
    ensures var shared := Step(apiKey, provider, theirs).provider;
      && shared == "ollama"
      && Step(apiKey, shared, next) == Turn("ollama", [AssistantReply(OllamaHandler(next.ollama))], [OllamaCall(next.text)])
  {
    CommandStep(apiKey, provider, theirs);
    PromptStep(apiKey, "ollama", next);
  }
}
