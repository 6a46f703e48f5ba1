/** The `TextFile` dataset: reads sentences, one per line, and turns each
    into a list of integer ids through a dictionary, optionally framed by
    beginning- and end-of-sentence markers. */
module TextFiles {
  import opened Wrappers
  import opened Strings

  /** Whether a sentence is cut into words or into characters. */
  datatype Level = Word | Character

  /** A constructed dataset. Nothing updates these fields after
      construction, so the dataset is a value. */
  datatype TextFile = TextFile(
    files: seq<string>,
    dictionary: map<string, int>,
    bosToken: Option<string>,
    eosToken: Option<string>,
    unkToken: string,
    level: Level,
    preprocess: Option<string -> string>)
  {
    /** What construction guarantees: every configured token is a key. */
    predicate Valid() {
      && (bosToken.Some? ==> bosToken.value in dictionary)
      && (eosToken.Some? ==> eosToken.value in dictionary)
      && unkToken in dictionary
    }
  }

  const DefaultBos: Option<string> := Some("<S>")
  const DefaultEos: Option<string> := Some("</S>")
  const DefaultUnk: string := "<UNK>"
  const DefaultLevel: string := "word"

  /** The constructor: rejects a marker or unknown token that is not in the
      dictionary and a level other than `word` or `character`; otherwise it
      keeps every argument as given. */
  function New(files: seq<string>, dictionary: map<string, int>,
               bosToken: Option<string>, eosToken: Option<string>,
               unkToken: string, level: string,
               preprocess: Option<string -> string>): (r: Result<TextFile>)
    ensures r.Ok? <==>
      && (bosToken.Some? ==> bosToken.value in dictionary)
      && (eosToken.Some? ==> eosToken.value in dictionary)
      && unkToken in dictionary
      && (level == "word" || level == "character")
    ensures r.Err? ==> r.error == ValueError
    ensures r.Ok? ==> r.value.Valid()
    ensures r.Ok? ==>
      && r.value.files == files && r.value.dictionary == dictionary
      && r.value.bosToken == bosToken && r.value.eosToken == eosToken
      && r.value.unkToken == unkToken && r.value.preprocess == preprocess
      && (r.value.level == Word <==> level == "word")
  {
    if bosToken.Some? && bosToken.value !in dictionary then Err(ValueError)
    else if eosToken.Some? && eosToken.value !in dictionary then Err(ValueError)
    else if unkToken !in dictionary then Err(ValueError)
    else if level != "word" && level != "character" then Err(ValueError)
    else Ok(TextFile(files, dictionary, bosToken, eosToken, unkToken,
                     if level == "word" then Word else Character, preprocess))
  }

  // --- the line cursor ---

  /** A position in the concatenated lines of the dataset's files. */
  datatype Cursor = Cursor(lines: seq<string>, pos: nat)

  /** The lines of `files`, file after file; `read` gives a file's lines. */
  function Lines(files: seq<string>, read: string -> seq<string>): (r: seq<string>)
  {
    if files == [] then [] else read(files[0]) + Lines(files[1..], read)
  }

  /** `open()`: a fresh traversal of all lines of all files, in file order,
      from the first line of the first file. */
  function Open(tf: TextFile, read: string -> seq<string>): (c: Cursor)
    ensures c.pos == 0
  {
    Cursor(Lines(tf.files, read), 0)
  }

  /** Line `j` of file `k` sits right after the lines of the files before
      it, and file `k` adds exactly its own lines to those before it. */
  lemma {:induction false} OpenReadsFilesInOrder(tf: TextFile, read: string -> seq<string>, k: nat, j: nat)
    requires k < |tf.files| && j < |read(tf.files[k])|
    ensures var before := |Lines(tf.files[..k], read)|;
      && before + j < |Open(tf, read).lines|
      && Open(tf, read).lines[before + j] == read(tf.files[k])[j]
    ensures Lines(tf.files[..k + 1], read) == Lines(tf.files[..k], read) + read(tf.files[k])
  {
    LinesAt(tf.files, read, k, j);
    assert tf.files[..k + 1] == tf.files[..k] + [tf.files[k]];
    LinesAppend(tf.files[..k], [tf.files[k]], read);
    assert [tf.files[k]][1..] == [];
  }

  lemma {:induction false} LinesAt(files: seq<string>, read: string -> seq<string>, k: nat, j: nat)
    requires k < |files| && j < |read(files[k])|
    ensures |Lines(files[..k], read)| + j < |Lines(files, read)|
    ensures Lines(files, read)[|Lines(files[..k], read)| + j] == read(files[k])[j]
  {
    if k == 0 {
      assert files[..0] == [];
    } else {
      assert files[..k][1..] == files[1..][..k - 1];
      LinesAt(files[1..], read, k - 1, j);
    }
  }

  /** The lines of two file lists read one after the other are the lines of
      the first list followed by those of the second: nothing is added,
      dropped or reordered between files. */
  lemma {:induction false} LinesAppend(a: seq<string>, b: seq<string>, read: string -> seq<string>)
    ensures Lines(a + b, read) == Lines(a, read) + Lines(b, read)
  {
    if a == [] {
      assert a + b == b;
    } else {
      assert (a + b)[1..] == a[1..] + b;
      LinesAppend(a[1..], b, read);
    }
  }

  /** `next(state)`: the line under the cursor and the cursor one line on. */
  function Next(c: Cursor): (r: Result<(string, Cursor)>)
    ensures r.Ok? <==> c.pos < |c.lines|
    ensures r.Err? ==> r.error == StopIteration
    ensures r.Ok? ==> r.value == (c.lines[c.pos], c.(pos := c.pos + 1))
  {
    if c.pos < |c.lines| then Ok((c.lines[c.pos], c.(pos := c.pos + 1)))
    else Err(StopIteration)
  }

  // --- encoding one sentence ---

  /** The sentence after the optional preprocessing function. */
  function Preprocessed(tf: TextFile, line: string): string
  {
    if tf.preprocess.Some? then tf.preprocess.value(line) else line
  }

  /** Each character of `s` as a one-character token. */
  function CharTokens(s: string): (r: seq<string>)
    ensures |r| == |s|
    ensures forall i :: 0 <= i < |s| ==> r[i] == [s[i]]
  {
    seq(|s|, i requires 0 <= i < |s| => [s[i]])
  }

  /** The tokens of a sentence: its whitespace-separated words, or the
      characters of the sentence stripped of surrounding whitespace. */
  function Tokens(level: Level, sentence: string): (r: seq<string>)
  {
    match level
    case Word => Split(sentence)
    case Character => CharTokens(Strip(sentence))
  }

  /** `dictionary.get(token, dictionary[unk])` */
  function Lookup(dictionary: map<string, int>, unk: string, token: string): (id: int)
    requires unk in dictionary
  {
    if token in dictionary then dictionary[token] else dictionary[unk]
  }

  /** A marker is written when it is set and not the empty string (both
      `None` and `''` are false in a Python condition). */
  predicate AddsMarker(token: Option<string>) {
    token.Some? && token.value != ""
  }

  /** The ids a marker adds: its id when it is written, else none. */
  function MarkerIds(dictionary: map<string, int>, token: Option<string>): (r: seq<int>)
    requires token.Some? ==> token.value in dictionary
  {
    if AddsMarker(token) then [dictionary[token.value]] else []
  }

  /** The id list of a preprocessed sentence: the BOS id if configured,
      then one id per token in order, then the EOS id if configured. */
  function Encode(tf: TextFile, sentence: string): (r: seq<int>)
    requires tf.Valid()
  {
    var toks := Tokens(tf.level, sentence);
    MarkerIds(tf.dictionary, tf.bosToken)
      + seq(|toks|, i requires 0 <= i < |toks| => Lookup(tf.dictionary, tf.unkToken, toks[i]))
      + MarkerIds(tf.dictionary, tf.eosToken)
  }

  /** `get_data(state, request)`: any request is refused before the cursor
      moves; otherwise exactly one line is consumed and encoded, and a
      cursor at the end signals the end of the data. */
  function GetData(tf: TextFile, state: Cursor, request: Option<int>): (r: Result<(seq<int>, Cursor)>)
    requires tf.Valid()
    ensures request.Some? ==> r == Err(ValueError)
    ensures request.None? && state.pos >= |state.lines| ==> r == Err(StopIteration)
    ensures request.None? && state.pos < |state.lines| ==>
      && r.Ok?
      && r.value.1 == state.(pos := state.pos + 1)
      && r.value.0 == Encode(tf, Preprocessed(tf, state.lines[state.pos]))
  {
    if request.Some? then Err(ValueError)
    else
      match Next(state)
      case Err(e) => Err(e)
      case Ok((line, next)) => Ok((Encode(tf, Preprocessed(tf, line)), next))
  }

  // --- properties of the encoding ---

  /** The output has the shape `[bos id]? ++ token ids ++ [eos id]?`: its
      length is the token count plus one per configured marker, the
      markers' ids stand at the ends, and token `i` becomes its dictionary
      id, or the unknown token's id when it is not a key. */
  lemma EncodeShape(tf: TextFile, sentence: string)
    requires tf.Valid()
    ensures var r, toks := Encode(tf, sentence), Tokens(tf.level, sentence);
      var b := if AddsMarker(tf.bosToken) then 1 else 0;
      var e := if AddsMarker(tf.eosToken) then 1 else 0;
      && |r| == b + |toks| + e
      && (b == 1 ==> r[0] == tf.dictionary[tf.bosToken.value])
      && (e == 1 ==> r[|r| - 1] == tf.dictionary[tf.eosToken.value])
      && (forall i :: 0 <= i < |toks| && toks[i] in tf.dictionary ==> r[b + i] == tf.dictionary[toks[i]])
      && (forall i :: 0 <= i < |toks| && toks[i] !in tf.dictionary ==> r[b + i] == tf.dictionary[tf.unkToken])
  {
  }

  /** In word mode the tokens are the non-empty, whitespace-free pieces of
      the sentence that together hold all its other characters in order. */
  lemma WordTokens(sentence: string)
    ensures var toks := Tokens(Word, sentence);
      && (forall i :: 0 <= i < |toks| ==> IsWord(toks[i]))
      && Concat(toks) == NonSpace(sentence)
  {
    SplitKeepsText(sentence);
  }

  /** In word mode the tokens break exactly at whitespace: whitespace in
      front is skipped, a word followed by whitespace or by the end of the
      sentence is one token, and whitespace alone gives no token. */
  lemma WordTokensBreakAtSpace(sp: string, w: string, y: string)
    requires AllSpace(sp) && IsWord(w) && (y == [] || IsSpace(y[0]))
    ensures Tokens(Word, sp + w + y) == [w] + Tokens(Word, y)
    ensures Tokens(Word, sp) == []
  {
    assert sp + w + y == sp + (w + y);
    SplitSkipsLeadingSpace(sp, w + y);
    SplitWordThen(w, y);
    AllSpaceSplit(sp);
  }

  /** In character mode the tokens are the characters of the sentence with
      its leading and trailing whitespace removed. */
  lemma CharacterTokens(sentence: string)
    ensures var toks, a := Tokens(Character, sentence), SpaceRun(sentence);
      && a + |toks| <= |sentence|
      && AllSpace(sentence[..a]) && AllSpace(sentence[a + |toks|..])
      && (forall i :: 0 <= i < |toks| ==> toks[i] == [sentence[a + i]])
      && (toks == [] || (!IsSpace(sentence[a]) && !IsSpace(sentence[a + |toks| - 1])))
  {
    StripIsTrim(sentence);
  }

  // --- the documented example ---

  function LowerChar(c: char): char {
    if 'A' <= c <= 'Z' then (c as int + 32) as char else c
  }

  /** `str.lower` on the letters the example uses. */
  function Lower(s: string): string {
    seq(|s|, i requires 0 <= i < |s| => LowerChar(s[i]))
  }

  const ExampleDictionary: map<string, int> :=
    map["<UNK>" := 0, "</S>" := 1, "this" := 2, "a" := 3, "one" := 4]

  const ExampleLines: seq<string> := ["This is a sentence\n", "This another one"]

  function ExampleDataset(): (tf: TextFile)
  {
    TextFile(["sentences.txt"], ExampleDictionary, None, DefaultEos, DefaultUnk, Word, Some(Lower))
  }

  lemma ExampleFirstLine()
    ensures Lower(ExampleLines[0]) == Join(["this", "is", "a", "sentence"], " ") + "\n"
  {
    var words := ["this", "is", "a", "sentence"];
    assert Join(words[2..], " ") == "a sentence";
    assert Join(words, " ") == "this is a sentence";
    assert ExampleLines[0] == "This is a sentence\n";
    assert LowerChar('T') == 't';
  }

  lemma ExampleFirstTokens()
    ensures Tokens(Word, Lower(ExampleLines[0])) == ["this", "is", "a", "sentence"]
  {
    var words := ["this", "is", "a", "sentence"];
    ExampleFirstLine();
    SplitJoin(words, " ");
    SplitTrailingSpace(Join(words, " "), "\n");
  }

  lemma ExampleSecondLine()
    ensures Lower(ExampleLines[1]) == Join(["this", "another", "one"], " ")
  {
    var words := ["this", "another", "one"];
    assert Join(words[1..], " ") == "another one";
    assert Join(words, " ") == "this another one";
    assert ExampleLines[1] == "This another one";
    assert LowerChar('T') == 't';
  }

  lemma ExampleSecondTokens()
    ensures Tokens(Word, Lower(ExampleLines[1])) == ["this", "another", "one"]
  {
    ExampleSecondLine();
    SplitJoin(["this", "another", "one"], " ");
  }

  /** Lowercased, without BOS marker, the two example lines encode to
      `[2, 0, 3, 0, 1]` and `[2, 0, 4, 1]`, after which the data ends. */
  lemma DocumentedExample()
    ensures var r := New(["sentences.txt"], ExampleDictionary, None, DefaultEos,
                         DefaultUnk, DefaultLevel, Some(Lower));
      && r == Ok(ExampleDataset())
      && GetData(r.value, Cursor(ExampleLines, 0), None) == Ok(([2, 0, 3, 0, 1], Cursor(ExampleLines, 1)))
      && GetData(r.value, Cursor(ExampleLines, 1), None) == Ok(([2, 0, 4, 1], Cursor(ExampleLines, 2)))
      && GetData(r.value, Cursor(ExampleLines, 2), None) == Err(StopIteration)
  {
    var tf := ExampleDataset();
    assert tf.Valid();
    ExampleFirstTokens();
    ExampleSecondTokens();
    assert Encode(tf, Lower(ExampleLines[0])) == [2, 0, 3, 0, 1];
    assert Encode(tf, Lower(ExampleLines[1])) == [2, 0, 4, 1];
  }
}
