/** The streaming relay of main.py: the emptiness check that picks a path,
    the accumulation of model tokens into server-sent-event frames, and the
    heartbeat that repeats the last frame. The JSON rendering of a Markdown
    component is the parameter `render`. */
module StreamingRelay {
  import opened ChatText

  const UserLabel := "**User:** "
  const ChatbotLabel := "**Chatbot:** "

  /** The text every answer starts from, before any token arrives. */
  function Opening(prompt: string): (r: string)
    ensures |r| == |UserLabel| + |prompt| + 2 + |ChatbotLabel|
    ensures r[..|UserLabel|] == UserLabel
    ensures r[|UserLabel|..|UserLabel| + |prompt|] == prompt
    ensures r[|UserLabel| + |prompt|..] == "\n\n" + ChatbotLabel
  {
    UserLabel + prompt + "\n\n" + ChatbotLabel
  }

  /** The recorded answer starts with the user label and the prompt. */
  lemma EntryStartsWithPrompt(prompt: string, tokens: seq<string>)
    ensures (Opening(prompt) + Concat(tokens))[..|UserLabel| + |prompt|] == UserLabel + prompt
  {
  }

  /** One server-sent event carrying the rendered text. */
  function Frame(render: string -> string, text: string): (r: string)
    ensures |r| == |render(text)| + 8
    ensures r[..6] == "data: " && r[6..|r| - 2] == render(text) && r[|r| - 2..] == "\n\n"
  {
    "data: " + render(text) + "\n\n"
  }

  /** The frames of a list of texts, one per text, in order. */
  function FramesOf(render: string -> string, texts: seq<string>): seq<string>
  {
    seq(|texts|, i requires 0 <= i < |texts| => Frame(render, texts[i]))
  }

  /** A prompt that sends the request down the empty-response path. */
  predicate IsEmptyPrompt(prompt: string)
  {
    prompt == "" || prompt == "None"
  }

  /** The accumulated answer texts, one for each non-empty token, each the
      whole output so far rather than the delta. */
  function ContentTexts(start: string, tokens: seq<string>): (r: seq<string>)
    ensures |r| <= |tokens|
    ensures forall i :: 0 <= i < |r| ==> start <= r[i]
  {
    if tokens == [] then []
    else
      var init, t := tokens[..|tokens| - 1], tokens[|tokens| - 1];
      ContentTexts(start, init) + (if t == "" then [] else [start + Concat(tokens)])
  }

  /** There is one text per non-empty token. */
  lemma {:induction false} ContentTextsCount(start: string, tokens: seq<string>)
    ensures |ContentTexts(start, tokens)| == |NonEmpty(tokens)|
    decreases |tokens|
  {
    if tokens != [] {
      ContentTextsCount(start, tokens[..|tokens| - 1]);
    }
  }

  /** One more token either adds nothing or adds one text, the start
      followed by every token so far. */
  lemma ContentTextsStep(start: string, tokens: seq<string>, i: nat)
    requires i < |tokens|
    ensures Concat(tokens[..i + 1]) == Concat(tokens[..i]) + tokens[i]
    ensures NonEmpty(tokens[..i + 1]) == NonEmpty(tokens[..i]) + (if tokens[i] == "" then [] else [tokens[i]])
    ensures ContentTexts(start, tokens[..i + 1]) ==
      ContentTexts(start, tokens[..i]) + (if tokens[i] == "" then [] else [start + Concat(tokens[..i + 1])])
  {
    assert tokens[..i + 1][..i] == tokens[..i];
  }

  /** Text i is the start followed by the first i + 1 non-empty tokens. */
  lemma {:induction false} ContentTextsAt(start: string, tokens: seq<string>, i: nat)
    requires i < |ContentTexts(start, tokens)|
    ensures i < |NonEmpty(tokens)|
    ensures ContentTexts(start, tokens)[i] == start + Concat(NonEmpty(tokens)[..i + 1])
    decreases |tokens|
  {
    var n := |tokens| - 1;
    var init, t := tokens[..n], tokens[n];
    assert tokens[..n + 1] == tokens;
    ContentTextsStep(start, tokens, n);
    ContentTextsCount(start, tokens);
    ContentTextsCount(start, init);
    var ne, neInit := NonEmpty(tokens), NonEmpty(init);
    if t == "" {
      assert ne == neInit;
      assert ContentTexts(start, tokens) == ContentTexts(start, init);
      ContentTextsAt(start, init, i);
    } else if i < |neInit| {
      assert ne[..i + 1] == neInit[..i + 1];
      ContentTextsAt(start, init, i);
    } else {
      assert ne[..i + 1] == ne;
      ConcatNonEmpty(tokens);
    }
  }

  /** Each emitted text is a strict prefix of every later one. */
  lemma ContentTextsGrow(start: string, tokens: seq<string>, i: nat, j: nat)
    requires i < j < |ContentTexts(start, tokens)|
    ensures ContentTexts(start, tokens)[i] < ContentTexts(start, tokens)[j]
  {
    ContentTextsAt(start, tokens, i);
    ContentTextsAt(start, tokens, j);
    var ne := NonEmpty(tokens);
    assert ne[..j + 1] == ne[..i + 1] + ([ne[i + 1]] + ne[i + 2..j + 1]);
    ConcatAppend(ne[..i + 1], [ne[i + 1]] + ne[i + 2..j + 1]);
    ConcatAppend([ne[i + 1]], ne[i + 2..j + 1]);
    ConcatSingle(ne[i + 1]);
  }

  /** The last text is the start followed by every token. */
  lemma {:induction false} ContentTextsLast(start: string, tokens: seq<string>)
    requires ContentTexts(start, tokens) != []
    ensures ContentTexts(start, tokens)[|ContentTexts(start, tokens)| - 1] == start + Concat(tokens)
    decreases |tokens|
  {
    var n := |tokens| - 1;
    var init := tokens[..n];
    if tokens[n] == "" {
      assert ContentTexts(start, tokens) == ContentTexts(start, init);
      assert Concat(tokens) == Concat(init) + "";
      ContentTextsLast(start, init);
    }
  }

  /** There are no texts exactly when no token is non-empty. */
  lemma {:induction false} ContentTextsNone(start: string, tokens: seq<string>)
    ensures ContentTexts(start, tokens) == [] <==> forall i :: 0 <= i < |tokens| ==> tokens[i] == ""
  {
    ContentTextsCount(start, tokens);
    NonEmptyEmptyIff(tokens);
  }

  /** Appending a text appends its frame. */
  lemma FramesOfSnoc(render: string -> string, texts: seq<string>, text: string)
    ensures FramesOf(render, texts + [text]) == FramesOf(render, texts) + [Frame(render, text)]
  {
  }

  /** The variables of the token loop after the first i tokens: the output
      so far, a frame for each text so far, and the last frame in `msg`. */
  predicate RelayState(render: string -> string, start: string, tokens: seq<string>, i: nat,
                       frames: seq<string>, output: string, msg: string)
  {
    i <= |tokens| &&
    output == start + Concat(tokens[..i]) &&
    frames == FramesOf(render, ContentTexts(start, tokens[..i])) &&
    msg == if frames == [] then "" else frames[|frames| - 1]
  }

  /** An empty token leaves the loop variables as they are. */
  lemma RelayStepSkip(render: string -> string, start: string, tokens: seq<string>, i: nat,
                      frames: seq<string>, output: string, msg: string)
    requires i < |tokens| && tokens[i] == ""
    requires RelayState(render, start, tokens, i, frames, output, msg)
    ensures RelayState(render, start, tokens, i + 1, frames, output, msg)
  {
    ContentTextsStep(start, tokens, i);
  }

  /** A non-empty token is appended to the output, and the frame of the new
      output is emitted and kept as `msg`. */
  lemma RelayStepEmit(render: string -> string, start: string, tokens: seq<string>, i: nat,
                      frames: seq<string>, output: string, msg: string)
    requires i < |tokens| && tokens[i] != ""
    requires RelayState(render, start, tokens, i, frames, output, msg)
    ensures var out := output + tokens[i];
      RelayState(render, start, tokens, i + 1, frames + [Frame(render, out)], out, Frame(render, out))
  {
    ContentTextsStep(start, tokens, i);
    FramesOfSnoc(render, ContentTexts(start, tokens[..i]), output + tokens[i]);
  }

  /** The token loop: skips empty tokens and, for every other one, appends it
      to the output and emits a frame of the whole output. Returns the frames,
      the final output and the last frame ('' when none was sent). */
  method RelayTokens(render: string -> string, start: string, tokens: seq<string>)
    returns (frames: seq<string>, output: string, msg: string)
    ensures frames == FramesOf(render, ContentTexts(start, tokens))
    ensures output == start + Concat(tokens)
    ensures msg == if frames == [] then "" else frames[|frames| - 1]
  {
    frames, output, msg := [], start, "";
    var i := 0;
    assert tokens[..0] == [];
    while i < |tokens|
      invariant RelayState(render, start, tokens, i, frames, output, msg)
    {
      var token := tokens[i];
      if token != "" {
        RelayStepEmit(render, start, tokens, i, frames, output, msg);
        output := output + token;
        msg := Frame(render, output);
        frames := frames + [msg];
      } else {
        RelayStepSkip(render, start, tokens, i, frames, output, msg);
      }
      i := i + 1;
    }
    assert tokens[..i] == tokens;
  }

  /** The heartbeat loop, run for k rounds: re-sends the same frame. */
  method Heartbeat(msg: string, k: nat) returns (frames: seq<string>)
    ensures |frames| == k
    ensures forall i :: 0 <= i < k ==> frames[i] == msg
  {
    frames := [];
    var n := 0;
    while n < k
      invariant 0 <= n <= k
      invariant |frames| == n
      invariant forall i :: 0 <= i < n ==> frames[i] == msg
    {
      frames := frames + [msg];
      n := n + 1;
    }
  }

  /** The empty-response generator with k heartbeat rounds: one frame of
      empty Markdown, then the same frame again every round. */
  method EmptyResponse(render: string -> string, k: nat) returns (frames: seq<string>)
    ensures |frames| == k + 1
    ensures forall i :: 0 <= i < |frames| ==> frames[i] == Frame(render, "")
  {
    var msg := Frame(render, "");
    var beats := Heartbeat(msg, k);
    frames := [msg] + beats;
  }

  /** What the generator path sends for the prompt and the tokens when its
      heartbeat runs k rounds: a frame for each accumulated text, then k
      copies of the last frame, which stays '' when no token had content. */
  predicate IsAnswerStream(render: string -> string, prompt: string, tokens: seq<string>, k: nat, frames: seq<string>)
  {
    var texts := ContentTexts(Opening(prompt), tokens);
    |frames| == |texts| + k &&
    (forall i :: 0 <= i < |texts| ==> frames[i] == Frame(render, texts[i])) &&
    (forall i :: |texts| <= i < |frames| ==>
      frames[i] == if texts == [] then "" else Frame(render, Opening(prompt) + Concat(tokens)))
  }

  /** The generator body after the template: the token loop, then k rounds of
      heartbeat. Also returns the history entry it records. */
  method StreamAnswer(render: string -> string, prompt: string, tokens: seq<string>, k: nat)
    returns (frames: seq<string>, entry: string)
    ensures IsAnswerStream(render, prompt, tokens, k, frames)
    ensures entry == Opening(prompt) + Concat(tokens)
  {
    var content, output, msg := RelayTokens(render, Opening(prompt), tokens);
    if content != [] {
      ContentTextsLast(Opening(prompt), tokens);
    }
    var beats := Heartbeat(msg, k);
    frames := content + beats;
    entry := output;
  }

  /** Every heartbeat frame is the last content frame, byte for byte. */
  lemma HeartbeatRepeatsLastFrame(render: string -> string, prompt: string, tokens: seq<string>, k: nat,
                                  frames: seq<string>, i: nat)
    requires IsAnswerStream(render, prompt, tokens, k, frames)
    requires NonEmpty(tokens) != []
    requires |NonEmpty(tokens)| <= i < |frames|
    ensures frames[i] == frames[|NonEmpty(tokens)| - 1]
  {
    var texts := ContentTexts(Opening(prompt), tokens);
    ContentTextsCount(Opening(prompt), tokens);
    ContentTextsLast(Opening(prompt), tokens);
    assert frames[|texts| - 1] == Frame(render, texts[|texts| - 1]);
  }

  /** The token stream ["Hello", "", " world"] gives two texts, the second being the first followed by " world". */
  lemma TwoTokenExample(start: string)
    ensures ContentTexts(start, ["Hello", "", " world"]) == [start + "Hello", start + "Hello world"]
  {
    var tokens := ["Hello", "", " world"];
    assert tokens[..2] == ["Hello", ""];
    assert tokens[..2][..1] == ["Hello"];
    assert ["Hello"][..0] == [];
    assert Concat(["Hello"]) == "Hello";
    assert Concat(["Hello", ""]) == "Hello";
    assert Concat(tokens) == "Hello world";
    assert ContentTexts(start, ["Hello"]) == [start + "Hello"];
    assert ContentTexts(start, ["Hello", ""]) == [start + "Hello"];
  }
}
