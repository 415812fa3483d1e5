/** The message handling of index.js: the ignore and prefix rules, command
    parsing, the two conversation-key derivations, the model-list text, the
    splitting of long replies, and the handlers that drive the store and
    the generator. Replies are returned instead of sent. */
module Router {
  import opened Wrappers
  import opened MemoryStore
  import opened TextGeneration

  const Prefix: string := "!miku"
  const HelpCommand: string := "ajuda"
  const ModelCommand: string := "modelo"
  const ClearCommand: string := "limpar"
  const ModelsCommand: string := "modelos"

  /** Longest reply sent in one message. */
  const MaxLength: nat := 1900

  const CheckMark: string := "✅"
  const Bullet: string := "•"
  const InvalidModelPrefix: string := "Modelo inválido. Modelos disponíveis: "
  const ModelChangedPrefix: string := "✅ Modelo alterado para: "
  const ClearedReply: string := "✅ Histórico de conversa limpo com sucesso!"
  const ChatFailureReply: string :=
    "Desculpe, ocorreu um erro ao processar sua mensagem. Por favor, tente novamente mais tarde."

  // ---------------------------------------------------------------------
  // Strings

  /** ECMAScript white space and line terminators, what `trim` strips and
      `\s` matches. */
  const Spaces: seq<char> := [
    '\t', '\n', '\U{000B}', '\U{000C}', '\r', ' ', '\U{00A0}', '\U{1680}',
    '\U{2000}', '\U{2001}', '\U{2002}', '\U{2003}', '\U{2004}', '\U{2005}',
    '\U{2006}', '\U{2007}', '\U{2008}', '\U{2009}', '\U{200A}',
    '\U{2028}', '\U{2029}', '\U{202F}', '\U{205F}', '\U{3000}', '\U{FEFF}'
  ]

  /** Whether `c` is one of `cs`. */
  predicate OneOf(c: char, cs: seq<char>)
  {
    cs != [] && (cs[0] == c || OneOf(c, cs[1..]))
  }

  predicate IsSpace(c: char)
  {
    OneOf(c, Spaces)
  }

  predicate StartsWith(s: string, prefix: string)
  {
    |prefix| <= |s| && s[..|prefix|] == prefix
  }

  /** One past the last character before `hi`, and at or after `lo`, that
      is not white space, or `lo` when there is none. */
  function EndOfText(s: string, lo: nat, hi: nat): (j: nat)
    requires lo <= hi <= |s|
    ensures lo <= j <= hi
    ensures forall k :: j <= k < hi ==> IsSpace(s[k])
    ensures j > lo ==> !IsSpace(s[j - 1])
    decreases hi
  {
    if hi == lo || !IsSpace(s[hi - 1]) then hi else EndOfText(s, lo, hi - 1)
  }

  /** `trim`: the part of `s` between its leading and trailing white space. */
  function Trim(s: string): (r: string)
    ensures var i := SkipTo(s, 0, false);
            i + |r| <= |s| && r == s[i..i + |r|] &&
            (forall k :: 0 <= k < i ==> IsSpace(s[k])) &&
            (forall k :: i + |r| <= k < |s| ==> IsSpace(s[k]))
    ensures r != [] ==> !IsSpace(r[0]) && !IsSpace(r[|r| - 1])
  {
    var i := SkipTo(s, 0, false);
    s[i..EndOfText(s, i, |s|)]
  }

  /** A string of white space only trims to the empty string. */
  lemma TrimBlank(s: string)
    requires forall k :: 0 <= k < |s| ==> IsSpace(s[k])
    ensures Trim(s) == ""
  {
  }

  /** The first index at or after `from` whose character is white space when
      `space` holds and is not otherwise, or `|s|`. */
  function SkipTo(s: string, from: nat, space: bool): (i: nat)
    requires from <= |s|
    ensures from <= i <= |s|
    ensures forall k :: from <= k < i ==> IsSpace(s[k]) != space
    ensures i < |s| ==> IsSpace(s[i]) == space
    decreases |s| - from
  {
    if from == |s| || IsSpace(s[from]) == space then from else SkipTo(s, from + 1, space)
  }

  /** `indexOf(c, from)`, with `|s|` standing for -1. */
  function IndexOf(s: string, c: char, from: nat): (i: nat)
    requires from <= |s|
    ensures from <= i <= |s|
    ensures forall k :: from <= k < i ==> s[k] != c
    ensures i < |s| ==> s[i] == c
    decreases |s| - from
  {
    if from == |s| || s[from] == c then from else IndexOf(s, c, from + 1)
  }

  /** `split(/\s+/)`: the pieces of `s` between maximal runs of white space
      (an empty first or last piece when `s` starts or ends with white
      space, and the single piece `""` for the empty string). */
  function SplitOnSpaces(s: string): (tokens: seq<string>)
    ensures |tokens| >= 1
    ensures forall n, k :: 0 <= n < |tokens| && 0 <= k < |tokens[n]| ==> !IsSpace(tokens[n][k])
    ensures |tokens[0]| <= |s| && tokens[0] == s[..|tokens[0]|]
    ensures |tokens| == 1 <==> |tokens[0]| == |s|
    ensures |tokens[0]| < |s| ==> IsSpace(s[|tokens[0]|])
    ensures |tokens[0]| < |s| ==> tokens[1..] == SplitOnSpaces(s[SkipTo(s, |tokens[0]|, false)..])
    decreases |s|
  {
    var i := SkipTo(s, 0, true);
    if i == |s| then [s]
    else
      var j := SkipTo(s, i, false);
      assert j > i;
      [s[..i]] + SplitOnSpaces(s[j..])
  }

  /** A word, a run of white space, then text that does not start with
      white space: the word is the first token and the split goes on with
      the text after the run. */
  lemma SplitAfterWord(word: string, gap: string, rest: string)
    requires forall k :: 0 <= k < |word| ==> !IsSpace(word[k])
    requires gap != [] && forall k :: 0 <= k < |gap| ==> IsSpace(gap[k])
    requires rest != [] ==> !IsSpace(rest[0])
    ensures SplitOnSpaces(word + gap + rest) == [word] + SplitOnSpaces(rest)
  {
    var s := word + gap + rest;
    var i := |word|;
    var j := |word| + |gap|;
    ThreeParts(word, gap, rest);
    SkipToLands(s, 0, true, i);
    SkipToLands(s, i, false, j);
  }

  /** Where the pieces of `word + gap + rest` sit. */
  lemma ThreeParts(word: string, gap: string, rest: string)
    ensures var s := word + gap + rest;
            s[..|word|] == word && s[|word| + |gap|..] == rest &&
            (forall k :: 0 <= k < |word| ==> s[k] == word[k]) &&
            (forall k :: |word| <= k < |word| + |gap| ==> s[k] == gap[k - |word|]) &&
            (rest != [] ==> s[|word| + |gap|] == rest[0])
  {
  }

  /** `SkipTo` stops at the first index from `from` on whose character has
      the sought kind. */
  lemma {:induction false} SkipToLands(s: string, from: nat, space: bool, at: nat)
    requires from <= at <= |s|
    requires forall k :: from <= k < at ==> IsSpace(s[k]) != space
    requires at < |s| ==> IsSpace(s[at]) == space
    ensures SkipTo(s, from, space) == at
    decreases at - from
  {
    if from < at {
      SkipToLands(s, from + 1, space, at);
    }
  }

  /** The characters of `s` that are not white space, in order. */
  function RemoveSpaces(s: string): string
  {
    if s == [] then [] else (if IsSpace(s[0]) then [] else [s[0]]) + RemoveSpaces(s[1..])
  }

  /** The strings of `ss` one after the other. */
  function Concat(ss: seq<string>): string
  {
    if ss == [] then "" else ss[0] + Concat(ss[1..])
  }

  /** Splitting on white space loses exactly the white space: the tokens,
      put back together, are the non-space characters of the input in order. */
  lemma {:induction false} SplitOnSpacesKeepsText(s: string)
    ensures Concat(SplitOnSpaces(s)) == RemoveSpaces(s)
    decreases |s|
  {
    var i := SkipTo(s, 0, true);
    if i == |s| {
      RemoveSpacesOfWord(s, i, i);
      assert s[..i] == s && s[i..] == [];
      ConcatCons(s, []);
    } else {
      var j := SkipTo(s, i, false);
      var rest := SplitOnSpaces(s[j..]);
      assert SplitOnSpaces(s) == [s[..i]] + rest;
      ConcatCons(s[..i], rest);
      SplitOnSpacesKeepsText(s[j..]);
      RemoveSpacesOfWord(s, i, j);
    }
  }

  /** A word followed by a run of white space contributes the word. */
  lemma {:induction false} RemoveSpacesOfWord(s: string, i: nat, j: nat)
    requires i <= j <= |s|
    requires forall k :: 0 <= k < i ==> !IsSpace(s[k])
    requires forall k :: i <= k < j ==> IsSpace(s[k])
    ensures RemoveSpaces(s) == s[..i] + RemoveSpaces(s[j..])
    decreases j
  {
    if j == 0 {
      assert s[j..] == s;
    } else if i == 0 {
      RemoveSpacesOfWord(s[1..], 0, j - 1);
      assert s[1..][j - 1..] == s[j..];
    } else {
      RemoveSpacesOfWord(s[1..], i - 1, j - 1);
      assert s[1..][j - 1..] == s[j..];
      assert s[..i] == [s[0]] + s[1..][..i - 1];
    }
  }

  lemma ConcatCons(head: string, rest: seq<string>)
    ensures Concat([head] + rest) == head + Concat(rest)
  {
    assert ([head] + rest)[1..] == rest;
  }

  /** A trimmed, non-empty string splits into non-empty tokens only. */
  lemma {:induction false} SplitTrimmedTokensNonEmpty(s: string)
    requires s != [] && !IsSpace(s[0]) && !IsSpace(s[|s| - 1])
    ensures forall n :: 0 <= n < |SplitOnSpaces(s)| ==> SplitOnSpaces(s)[n] != ""
    decreases |s|
  {
    var i := SkipTo(s, 0, true);
    if i < |s| {
      var j := SkipTo(s, i, false);
      assert j < |s|;
      var rest := SplitOnSpaces(s[j..]);
      SplitTrimmedTokensNonEmpty(s[j..]);
      assert SplitOnSpaces(s) == [s[..i]] + rest;
    }
  }

  /** `toLowerCase` on one character, for the Latin capitals A to Z. */
  function LowerChar(c: char): (r: char)
    ensures !('A' <= r <= 'Z')
    ensures 'A' <= c <= 'Z' ==> r as int == c as int - 'A' as int + 'a' as int
    ensures !('A' <= c <= 'Z') ==> r == c
  {
    if 'A' <= c <= 'Z' then (c as int - 'A' as int + 'a' as int) as char else c
  }

  /** `toLowerCase`, character by character. */
  function ToLower(s: string): (r: string)
    ensures |r| == |s|
    ensures forall i :: 0 <= i < |s| ==> r[i] == LowerChar(s[i])
  {
    seq(|s|, i requires 0 <= i < |s| => LowerChar(s[i]))
  }

  /** `array.join(sep)`. */
  function Join(parts: seq<string>, sep: string): string
  {
    if parts == [] then ""
    else if |parts| == 1 then parts[0]
    else parts[0] + sep + Join(parts[1..], sep)
  }

  /** `split(sep)` for a one-character separator. */
  function Split(s: string, sep: char): (pieces: seq<string>)
    ensures |pieces| >= 1
    decreases |s|
  {
    var i := IndexOf(s, sep, 0);
    if i == |s| then [s] else [s[..i]] + Split(s[i + 1..], sep)
  }

  /** Joining lines that do not contain the separator and splitting the result
      gives the lines back. */
  lemma {:induction false} SplitJoin(lines: seq<string>, sep: char)
    requires |lines| >= 1
    requires forall n, k :: 0 <= n < |lines| && 0 <= k < |lines[n]| ==> lines[n][k] != sep
    ensures Split(Join(lines, [sep]), sep) == lines
    decreases |lines|
  {
    var s := Join(lines, [sep]);
    var i := IndexOf(s, sep, 0);
    if |lines| == 1 {
      assert s == lines[0];
      assert i == |s|;
    } else {
      var first := lines[0];
      var rest := Join(lines[1..], [sep]);
      assert s == first + [sep] + rest;
      assert forall k :: 0 <= k < |first| ==> s[k] == first[k] && s[k] != sep;
      assert s[|first|] == sep;
      assert i == |first|;
      assert s[..i] == first;
      assert s[i + 1..] == rest;
      SplitJoin(lines[1..], sep);
      assert lines == [first] + lines[1..];
    }
  }

  // ---------------------------------------------------------------------
  // Commands and routing

  /** What a `!miku` command asks for. */
  datatype Command = ChangeModel(alias: Option<string>) | ClearConversation | ShowHelp | ListModels

  /** The command spelled by the text after the prefix: its first
      white-space-separated token, lower-cased, chooses the command; for
      `modelo` the second token, as typed, is the alias. Anything not
      recognised, the empty token of a bare prefix included, shows help. */
  function CommandOf(afterPrefix: string): (c: Command)
    ensures var args := SplitOnSpaces(Trim(afterPrefix));
            var command := ToLower(args[0]);
            (c.ShowHelp? <==> command !in {ModelCommand, ClearCommand, ModelsCommand}) &&
            (c == ClearConversation <==> command == ClearCommand) &&
            (c == ListModels <==> command == ModelsCommand) &&
            (c.ChangeModel? <==> command == ModelCommand) &&
            (c.ChangeModel? ==> c.alias == if |args| > 1 then Some(args[1]) else None)
  {
    var args := SplitOnSpaces(Trim(afterPrefix));
    var command := ToLower(args[0]);
    var model := if |args| > 1 then Some(args[1]) else None;
    if command == ModelCommand then ChangeModel(model)
    else if command == ClearCommand then ClearConversation
    else if command == HelpCommand || command == "help" then ShowHelp
    else if command == ModelsCommand then ListModels
    else ShowHelp
  }

  /** A bare prefix, or one followed by white space only, shows help. */
  lemma BarePrefixShowsHelp(afterPrefix: string)
    requires forall k :: 0 <= k < |afterPrefix| ==> IsSpace(afterPrefix[k])
    ensures CommandOf(afterPrefix) == ShowHelp
  {
    TrimBlank(afterPrefix);
    assert SplitOnSpaces("") == [""];
  }

  /** What the handler does with a message. */
  datatype Action = Ignore | RunCommand(command: Command) | Chat(prompt: string)

  /** The reserved first characters: `!`, `/` and `.`. */
  predicate Reserved(input: string)
  {
    StartsWith(input, "!") || StartsWith(input, "/") || StartsWith(input, ".")
  }

  /** The command prefix starts with a reserved character. */
  lemma PrefixIsReserved(input: string)
    ensures StartsWith(input, Prefix) ==> Reserved(input)
  {
    if StartsWith(input, Prefix) {
      assert input[..1] == Prefix[..1] == "!";
    }
  }

  /** How a message is handled: bots are ignored; trimmed input starting with
      the prefix is a command; other input starting with a reserved character
      is ignored; everything else, the empty input included, is chat. */
  function Route(authorIsBot: bool, content: string): (a: Action)
    ensures a.Chat? <==> !authorIsBot && !Reserved(Trim(content))
    ensures a.Chat? ==> a.prompt == Trim(content)
    ensures a.RunCommand? <==> !authorIsBot && StartsWith(Trim(content), Prefix)
    ensures a.RunCommand? ==> a.command == CommandOf(Trim(content)[|Prefix|..])
  {
    if authorIsBot then Ignore
    else
      var userInput := Trim(content);
      PrefixIsReserved(userInput);
      if StartsWith(userInput, Prefix) then RunCommand(CommandOf(userInput[|Prefix|..]))
      else if Reserved(userInput) then Ignore
      else Chat(userInput)
  }

  /** The conversation key of the chat path: `dm_<user>` when the channel
      type reads as a direct message, the channel id otherwise. */
  function ChatKey(channelIsDM: bool, userId: string, channelId: string): string
  {
    if channelIsDM then "dm_" + userId else channelId
  }

  /** The conversation key of the clear command: `dm_<user>` when the message
      has no guild, the channel id otherwise. */
  function ClearKey(inGuild: bool, userId: string, channelId: string): string
  {
    if !inGuild then "dm_" + userId else channelId
  }

  /** The two derivations give the same key exactly when their two tests
      agree, or when the channel id happens to be `dm_<user>` itself. */
  lemma KeysAgree(channelIsDM: bool, inGuild: bool, userId: string, channelId: string)
    ensures ChatKey(channelIsDM, userId, channelId) == ClearKey(inGuild, userId, channelId)
        <==> channelIsDM == !inGuild || channelId == "dm_" + userId
  {
  }

  /** Direct-message keys never meet guild channel keys, as channel ids do
      not start with `dm_`. */
  lemma DirectKeysSeparate(userId: string, otherUser: string, channelId: string)
    requires !StartsWith(channelId, "dm_")
    ensures ChatKey(true, userId, channelId) != ChatKey(false, otherUser, channelId)
    ensures ClearKey(false, userId, channelId) != ClearKey(true, otherUser, channelId)
  {
    assert ("dm_" + userId)[..3] == "dm_";
  }

  // ---------------------------------------------------------------------
  // The model list

  /** One line of the model list: a check mark for the current model, a
      bullet otherwise, then the alias. */
  function ModelLine(model: string, current: string): string
  {
    (if model == current then CheckMark else Bullet) + " " + model
  }

  predicate Marked(line: string)
  {
    StartsWith(line, CheckMark)
  }

  function ModelLines(models: seq<string>, current: string): (lines: seq<string>)
    ensures |lines| == |models|
    ensures forall i :: 0 <= i < |models| ==> lines[i] == ModelLine(models[i], current)
  {
    seq(|models|, i requires 0 <= i < |models| => ModelLine(models[i], current))
  }

  /** The description of the model-list reply. */
  function FormatModelList(models: seq<string>, current: string): string
  {
    Join(ModelLines(models, current), "\n")
  }

  /** A model line is marked exactly when its model is the current one, and
      it is a single line when the model is. */
  lemma ModelLineShape(model: string, current: string)
    ensures Marked(ModelLine(model, current)) <==> model == current
    ensures (forall k :: 0 <= k < |model| ==> model[k] != '\n') ==>
            forall k :: 0 <= k < |ModelLine(model, current)| ==> ModelLine(model, current)[k] != '\n'
  {
    var mark := if model == current then CheckMark else Bullet;
    var line := ModelLine(model, current);
    assert line == mark + " " + model;
    assert line[0] == mark[0];
    forall k | |mark| + 1 <= k < |line|
      ensures line[k] == model[k - |mark| - 1]
    {
    }
  }

  /** The model list has one line per model, in order; a line is marked
      exactly when its model is the current preference, so with distinct
      models at most one line is marked. */
  lemma ModelListLines(models: seq<string>, current: string)
    requires |models| >= 1
    requires forall n, k :: 0 <= n < |models| && 0 <= k < |models[n]| ==> models[n][k] != '\n'
    ensures var lines := Split(FormatModelList(models, current), '\n');
            |lines| == |models| &&
            (forall i :: 0 <= i < |models| ==> lines[i] == ModelLine(models[i], current)) &&
            (forall i :: 0 <= i < |models| ==> (Marked(lines[i]) <==> models[i] == current))
    ensures (forall i, j :: 0 <= i < j < |models| ==> models[i] != models[j]) ==>
            forall i, j :: 0 <= i < j < |models| ==>
              !(Marked(ModelLine(models[i], current)) && Marked(ModelLine(models[j], current)))
  {
    var lines := ModelLines(models, current);
    forall n | 0 <= n < |models|
      ensures (Marked(lines[n]) <==> models[n] == current) &&
              forall k :: 0 <= k < |lines[n]| ==> lines[n][k] != '\n'
    {
      ModelLineShape(models[n], current);
    }
    SplitJoin(lines, '\n');
  }

  /** The aliases are single words. */
  lemma AliasesSingleLine()
    ensures forall n, k :: 0 <= n < |ModelAliases| && 0 <= k < |ModelAliases[n]| ==> ModelAliases[n][k] != '\n'
  {
  }

  /** The store's default preference `gemini-1.5-flash` is not an alias, so
      a user with no preference is served the default model
      `gemini-2.5-flash-lite`. */
  lemma UnsetPreferenceResolves()
    ensures DefaultUserModel !in Models
    ensures GetModel(DefaultUserModel) == GetModel(DefaultModel) == "gemini-2.5-flash-lite"
  {
    assert Models.Keys == {"lite", "flash", "pro"};
  }

  /** A user with no preference is shown no check mark in the model list. */
  lemma UnsetPreferenceUnmarked()
    ensures forall i :: 0 <= i < |GetAvailableModels()| ==>
      !Marked(ModelLines(GetAvailableModels(), DefaultUserModel)[i])
  {
    var models := GetAvailableModels();
    assert models == ModelAliases;
    forall i | 0 <= i < |models|
      ensures !Marked(ModelLines(models, DefaultUserModel)[i])
    {
      assert models[i] != DefaultUserModel;
      ModelLineShape(models[i], DefaultUserModel);
    }
  }

  // ---------------------------------------------------------------------
  // Long replies

  /** `substring(from, to)` with `to` clamped to the length. */
  function Substring(s: string, from: nat, to: nat): string
    requires from <= |s| && from <= to
  {
    s[from..if to < |s| then to else |s|]
  }

  /** The pieces the reply loop produces: consecutive slices of `MaxLength`
      characters, the last one possibly shorter. */
  function Chunks(s: string): seq<string>
    decreases |s|
  {
    if s == [] then []
    else
      var piece := Substring(s, 0, MaxLength);
      [piece] + Chunks(s[|piece|..])
  }

  /** The chunks put back together are the reply; there are
      `ceil(|s| / MaxLength)` of them, none empty or longer than `MaxLength`,
      and all but the last exactly `MaxLength` long. */
  lemma {:induction false} ChunksProperties(s: string)
    ensures Concat(Chunks(s)) == s
    ensures |Chunks(s)| == (|s| + MaxLength - 1) / MaxLength
    ensures forall i :: 0 <= i < |Chunks(s)| ==> 0 < |Chunks(s)[i]| <= MaxLength
    ensures forall i :: 0 <= i < |Chunks(s)| - 1 ==> |Chunks(s)[i]| == MaxLength
    decreases |s|
  {
    if s != [] {
      var piece := Substring(s, 0, MaxLength);
      var rest := s[|piece|..];
      ChunksProperties(rest);
      assert Chunks(s) == [piece] + Chunks(rest);
      ConcatCons(piece, Chunks(rest));
      assert s == piece + rest;
    }
  }

  /** The reply loop: `for (i = 0; i < length; i += maxLength)` pushing
      `substring(i, i + maxLength)`. */
  method SplitReply(response: string) returns (chunks: seq<string>)
    ensures chunks == Chunks(response)
  {
    chunks := [];
    var i := 0;
    while i < |response|
      invariant Chunks(response) == chunks + Chunks(response[if i < |response| then i else |response|..])
      decreases |response| - i
    {
      ChunksFrom(response, i);
      chunks := chunks + [Substring(response, i, i + MaxLength)];
      i := i + MaxLength;
    }
    assert response[|response|..] == [];
  }

  /** One step of the reply loop: the chunks from `i` on are the slice at `i`
      followed by the chunks after it. */
  lemma ChunksFrom(s: string, i: nat)
    requires i < |s|
    ensures var end := if i + MaxLength < |s| then i + MaxLength else |s|;
            Chunks(s[i..]) == [Substring(s, i, i + MaxLength)] + Chunks(s[end..])
  {
    var rest := s[i..];
    var end := if i + MaxLength < |s| then i + MaxLength else |s|;
    assert Substring(rest, 0, MaxLength) == Substring(s, i, i + MaxLength);
    assert rest[end - i..] == s[end..];
  }

  /** The texts sent for a generated response: one reply when it fits, the
      chunks otherwise. */
  function OutgoingTexts(response: string): (texts: seq<string>)
    ensures Concat(texts) == response
    ensures forall i :: 0 <= i < |texts| ==> |texts[i]| <= MaxLength || |texts| == 1
    ensures |response| <= MaxLength ==> texts == [response]
    ensures |response| > MaxLength ==> forall i :: 0 <= i < |texts| ==> |texts[i]| <= MaxLength
  {
    if |response| > MaxLength then
      ChunksProperties(response);
      Chunks(response)
    else
      ConcatCons(response, []);
      [response]
  }

  /** 3500 characters go out as two replies of 1900 and 1600. */
  lemma ChunksOf3500(s: string)
    requires |s| == 3500
    ensures |Chunks(s)| == 2 && |Chunks(s)[0]| == 1900 && |Chunks(s)[1]| == 1600
  {
    ChunksProperties(s);
    var c := Chunks(s);
    assert Concat(c) == c[0] + Concat(c[1..]);
    assert Concat(c[1..]) == c[1] + Concat(c[2..]);
  }

  // ---------------------------------------------------------------------
  // Handlers

  /** What the bot sends back. The help embed is fixed text; the model list
      is an embed whose description is the list. */
  datatype Reply = Text(text: string) | HelpEmbed | ModelsEmbed(description: string)

  /** The fields of an incoming message the handler reads. `channelIsDM` is
      the channel-type test of the chat path, `inGuild` the guild test of the
      commands. */
  datatype Message = Message(authorIsBot: bool, authorId: string, channelId: string,
                             channelIsDM: bool, inGuild: bool, content: string)

  /** One plain reply per text, in order. */
  function TextReplies(texts: seq<string>): (replies: seq<Reply>)
    ensures |replies| == |texts|
    ensures forall i :: 0 <= i < |texts| ==> replies[i] == Text(texts[i])
  {
    seq(|texts|, i requires 0 <= i < |texts| => Text(texts[i]))
  }

  /** A model argument the model command accepts: present, non-empty and,
      compared case-sensitively, one of the aliases. */
  predicate Accepted(model: Option<string>)
  {
    model.Some? && model.value != "" && model.value in GetAvailableModels()
  }

  /** `!miku modelo [alias]`: stores an accepted alias as the author's
      preference and confirms it, and otherwise lists the aliases. Direct
      messages and guild messages are handled alike. */
  method HandleModelCommand(store: MemoryHandler, userId: string, inGuild: bool, model: Option<string>)
    returns (reply: Reply)
    requires store.Valid()
    modifies store
    ensures store.Valid()
    ensures store.chatHistory == old(store.chatHistory) && store.appendedCount == old(store.appendedCount)
    ensures Accepted(model) ==>
      store.userModels == old(store.userModels)[userId := model.value] &&
      reply == Text(ModelChangedPrefix + model.value) &&
      store.GetUserModel(userId) == model.value &&
      GetModel(store.GetUserModel(userId)) == Models[model.value]
    ensures !Accepted(model) ==>
      store.userModels == old(store.userModels) &&
      reply == Text(InvalidModelPrefix + Join(GetAvailableModels(), ", "))
  {
    var availableModels := GetAvailableModels();
    if !inGuild {
      if model.None? || model.value == "" || model.value !in availableModels {
        return Text(InvalidModelPrefix + Join(availableModels, ", "));
      }
      var _ := store.SetUserModel(userId, model.value);
      return Text(ModelChangedPrefix + model.value);
    }
    if model.None? || model.value == "" || model.value !in availableModels {
      return Text(InvalidModelPrefix + Join(availableModels, ", "));
    }
    var _ := store.SetUserModel(userId, model.value);
    reply := Text(ModelChangedPrefix + model.value);
  }

  /** `!miku limpar`: empties the conversation under the clear command's
      key and confirms. */
  method HandleClearCommand(store: MemoryHandler, userId: string, channelId: string, inGuild: bool)
    returns (reply: Reply)
    requires store.Valid()
    modifies store
    ensures store.Valid()
    ensures store.chatHistory == old(store.chatHistory)[ClearKey(inGuild, userId, channelId) := []]
    ensures store.userModels == old(store.userModels)
    ensures reply == Text(ClearedReply)
  {
    var key := ClearKey(inGuild, userId, channelId);
    var _ := store.ClearHistory(key);
    reply := Text(ClearedReply);
  }

  /** `!miku modelos`: the model list, marking the current preference. */
  function ShowAvailableModels(current: string): (reply: Reply)
    ensures reply.ModelsEmbed?
    ensures Split(reply.description, '\n') == ModelLines(GetAvailableModels(), current)
  {
    var models := GetAvailableModels();
    assert models == ModelAliases;
    AliasesSingleLine();
    ModelListLines(models, current);
    ModelsEmbed(FormatModelList(models, current))
  }

  /** Updating a key twice is updating it once, to the second value. */
  lemma UpdateTwice<K, V>(m: map<K, V>, k: K, x: V, y: V)
    ensures m[k := x][k := y] == m[k := y]
  {
  }

  /** The replies carrying a generated answer: the answer itself when it
      fits in one message, its chunks otherwise. */
  method AnswerReplies(response: string) returns (replies: seq<Reply>)
    ensures replies == TextReplies(OutgoingTexts(response))
  {
    if |response| > MaxLength {
      var chunks := SplitReply(response);
      replies := TextReplies(chunks);
    } else {
      replies := [Text(response)];
    }
  }

  /** The chat path: records the user turn, asks the generator with the
      stored conversation (the new turn included) and the author's
      preference, records the answer only when generation succeeded, and
      replies with the answer in pieces of at most `MaxLength` characters,
      or with an apology. */
  method HandleChat(store: MemoryHandler, api: (string, seq<Content>) -> ApiOutcome,
                    userId: string, channelId: string, userInput: string)
    returns (replies: seq<Reply>)
    requires store.Valid()
    modifies store
    ensures store.Valid()
    ensures store.userModels == old(store.userModels)
    ensures var asked := Push(old(store.GetHistory(channelId)), Entry("user", userInput), 2 * store.maxHistory);
            var answer := GenerateResponse(api, userInput, asked, old(store.GetUserModel(userId)));
            (answer.Success? ==>
               store.chatHistory == old(store.chatHistory)[channelId := Push(asked, Entry("assistant", answer.response), 2 * store.maxHistory)] &&
               replies == TextReplies(OutgoingTexts(answer.response))) &&
            (answer.Failure? ==>
               store.chatHistory == old(store.chatHistory)[channelId := asked] &&
               replies == [Text(ChatFailureReply)])
  {
    ghost var before := store.chatHistory;
    ghost var asked := Push(store.GetHistory(channelId), Entry("user", userInput), 2 * store.maxHistory);
    ghost var preference := store.GetUserModel(userId);
    store.AddMessage(channelId, "user", userInput);
    ghost var recorded := store.chatHistory;
    assert recorded == before[channelId := asked];
    var history := store.GetHistory(channelId);
    var model := store.GetUserModel(userId);
    assert history == asked && model == preference;
    var aiResponse := GenerateResponse(api, userInput, history, model);
    if aiResponse.Success? {
      ghost var answered := Push(asked, Entry("assistant", aiResponse.response), 2 * store.maxHistory);
      store.AddMessage(channelId, "assistant", aiResponse.response);
      assert store.chatHistory == recorded[channelId := answered];
      UpdateTwice(before, channelId, asked, answered);
      replies := AnswerReplies(aiResponse.response);
    } else {
      replies := [Text(ChatFailureReply)];
    }
  }

  /** The `messageCreate` handler, with the replies it sends as its result.
      It does what `Route` says: nothing for ignored messages, the command's
      effect for commands, and for chat it touches only the conversation
      under the chat key. */
  method OnMessage(store: MemoryHandler, api: (string, seq<Content>) -> ApiOutcome, message: Message)
    returns (replies: seq<Reply>)
    requires store.Valid()
    modifies store
    ensures store.Valid()
    ensures var action := Route(message.authorIsBot, message.content);
            (action == Ignore ==>
               replies == [] && store.chatHistory == old(store.chatHistory) &&
               store.userModels == old(store.userModels)) &&
            (action == RunCommand(ShowHelp) ==>
               replies == [HelpEmbed] && store.chatHistory == old(store.chatHistory) &&
               store.userModels == old(store.userModels)) &&
            (action == RunCommand(ListModels) ==>
               replies == [ShowAvailableModels(old(store.GetUserModel(message.authorId)))] &&
               store.chatHistory == old(store.chatHistory) && store.userModels == old(store.userModels)) &&
            (action == RunCommand(ClearConversation) ==>
               replies == [Text(ClearedReply)] &&
               store.chatHistory == old(store.chatHistory)[ClearKey(message.inGuild, message.authorId, message.channelId) := []] &&
               store.userModels == old(store.userModels)) &&
            (action.RunCommand? && action.command.ChangeModel? ==>
               replies == [if Accepted(action.command.alias)
                           then Text(ModelChangedPrefix + action.command.alias.value)
                           else Text(InvalidModelPrefix + Join(GetAvailableModels(), ", "))] &&
               store.chatHistory == old(store.chatHistory) &&
               store.userModels == if Accepted(action.command.alias)
                                   then old(store.userModels)[message.authorId := action.command.alias.value]
                                   else old(store.userModels)) &&
            (action.Chat? ==>
               |replies| >= 1 && store.userModels == old(store.userModels) &&
               var key := ChatKey(message.channelIsDM, message.authorId, message.channelId);
               key in store.chatHistory && store.chatHistory == old(store.chatHistory)[key := store.chatHistory[key]])
    ensures var action := Route(message.authorIsBot, message.content);
            action.Chat? ==>
              var key := ChatKey(message.channelIsDM, message.authorId, message.channelId);
              var asked := Push(old(store.GetHistory(key)), Entry("user", action.prompt), 2 * store.maxHistory);
              var answer := GenerateResponse(api, action.prompt, asked, old(store.GetUserModel(message.authorId)));
              (answer.Success? ==>
                 store.chatHistory == old(store.chatHistory)[key := Push(asked, Entry("assistant", answer.response), 2 * store.maxHistory)] &&
                 replies == TextReplies(OutgoingTexts(answer.response))) &&
              (answer.Failure? ==>
                 store.chatHistory == old(store.chatHistory)[key := asked] &&
                 replies == [Text(ChatFailureReply)])
  {
    if message.authorIsBot {
      return [];
    }
    var isDM := message.channelIsDM;
    var userId := message.authorId;
    var channelId := ChatKey(isDM, userId, message.channelId);
    var userInput := Trim(message.content);
    if StartsWith(userInput, Prefix) {
      var command := CommandOf(userInput[|Prefix|..]);
      match command {
        case ChangeModel(model) =>
          var reply := HandleModelCommand(store, userId, message.inGuild, model);
          replies := [reply];
        case ClearConversation =>
          var reply := HandleClearCommand(store, userId, message.channelId, message.inGuild);
          replies := [reply];
        case ShowHelp =>
          replies := [HelpEmbed];
        case ListModels =>
          replies := [ShowAvailableModels(store.GetUserModel(userId))];
      }
      return;
    }
    if Reserved(userInput) {
      return [];
    }
    replies := HandleChat(store, api, userId, channelId, userInput);
  }
}
