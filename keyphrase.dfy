/**
 * The server's key phrases (apps/ilix-server/src/utils/keyphrase.rs): the
 * twenty-word shape, the checked conversion into a `KeyPhrase`, generation
 * from the word dictionary, the iterated hash and its verification. The
 * dictionary file, the random word choice, the `HASH_ROUND` variable and
 * SHA3-256-then-hex are parameters.
 */
module KeyPhrases {
  import opened Wrappers
  import opened Strings
  import opened Errors
  import ClientUtils

  const KEY_PHRASE_LEN := 20

  /** `is_key_phrase`: splitting on `-` gives exactly twenty pieces. */
  predicate IsKeyPhrase(s: string) {
    |Split(s, '-')| == KEY_PHRASE_LEN
  }

  /** The server's check and the client's `IsCodeOk` accept the same strings: nineteen dashes. */
  lemma KeyPhraseChecksAgree(s: string)
    ensures IsKeyPhrase(s) <==> ClientUtils.IsCodeOk(s)
    ensures IsKeyPhrase(s) <==> Count(s, '-') == KEY_PHRASE_LEN - 1
  {
    SplitLength(s, '-');
  }

  datatype KeyPhrase = KeyPhrase(text: string)

  /**
   * The three `TryFrom` conversions (from `&str`, from a path segment and from
   * `String`), which differ only in ownership: a well-formed phrase is kept
   * unchanged, anything else is `InvalidKeyPhrase`.
   */
  function TryFrom(s: string): (r: Result<KeyPhrase, ServerError>)
    ensures r.Ok? <==> IsKeyPhrase(s)
    ensures r.Ok? ==> r.value.text == s
    ensures r.Err? ==> r.error == InvalidKeyPhrase
  {
    if !IsKeyPhrase(s) then Err(InvalidKeyPhrase) else Ok(KeyPhrase(s))
  }

  // ---- new ----------------------------------------------------------------------

  /** A line with one trailing carriage return removed. */
  function StripCr(line: string): (r: string)
    ensures |r| <= |line| && r == line[..|r|]
  {
    if |line| > 0 && line[|line| - 1] == '\r' then line[..|line| - 1] else line
  }

  /**
   * Rust `str::lines`: the pieces between `\n`, without an empty piece after a
   * final `\n`. A piece that a `\n` ends also loses one trailing `\r`; an
   * unterminated last piece keeps its `\r`.
   */
  function Lines(s: string): seq<string> {
    var pieces := Split(s, '\n');
    var kept := if pieces[|pieces| - 1] == "" then pieces[..|pieces| - 1] else pieces;
    seq(|kept|, i requires 0 <= i < |kept| => if i < |pieces| - 1 then StripCr(kept[i]) else kept[i])
  }

  /** A character missing from a string is missing from every piece of its split. */
  lemma {:induction false} SplitKeepsAbsent(s: string, sep: char, c: char)
    requires c !in s
    ensures forall i :: 0 <= i < |Split(s, sep)| ==> c !in Split(s, sep)[i]
    decreases |s|
  {
    if |s| > 0 {
      assert c !in s[1..] by {
        forall k | 0 <= k < |s[1..]| ensures s[1..][k] != c { assert s[1..][k] == s[k + 1]; }
      }
      SplitKeepsAbsent(s[1..], sep, c);
    }
  }

  /** Each line is a prefix of one piece of the split on `\n`. */
  lemma LineOfPiece(s: string, i: int)
    requires 0 <= i < |Lines(s)|
    ensures i < |Split(s, '\n')| && |Lines(s)[i]| <= |Split(s, '\n')[i]|
    ensures Lines(s)[i] == Split(s, '\n')[i][..|Lines(s)[i]|]
  {
    var pieces := Split(s, '\n');
    var kept := if pieces[|pieces| - 1] == "" then pieces[..|pieces| - 1] else pieces;
    assert kept[i] == pieces[i];
    assert Lines(s)[i] == if i < |pieces| - 1 then StripCr(kept[i]) else kept[i];
  }

  /** A character missing from the dictionary is missing from each of its lines. */
  lemma LinesKeepAbsent(s: string, c: char)
    requires c !in s
    ensures forall i :: 0 <= i < |Lines(s)| ==> c !in Lines(s)[i]
  {
    SplitKeepsAbsent(s, '\n', c);
    forall i | 0 <= i < |Lines(s)|
      ensures c !in Lines(s)[i]
    {
      LineOfPiece(s, i);
      var piece := Split(s, '\n')[i];
      var line := Lines(s)[i];
      forall k | 0 <= k < |line| ensures line[k] != c { assert line[k] == piece[k]; }
    }
  }

  /** No line holds a line break, so every dictionary word is a single line's text. */
  lemma LinesAreUnbroken(s: string)
    ensures forall i :: 0 <= i < |Lines(s)| ==> '\n' !in Lines(s)[i]
  {
    SplitPieces(s, '\n');
    forall i | 0 <= i < |Lines(s)|
      ensures '\n' !in Lines(s)[i]
    {
      LineOfPiece(s, i);
      var piece := Split(s, '\n')[i];
      var line := Lines(s)[i];
      forall k | 0 <= k < |line| ensures line[k] != '\n' { assert line[k] == piece[k]; }
    }
  }

  /**
   * The words a generation picks: `picks[i]` is the index the random generator
   * drew for the i-th word. The source panics when the dictionary is empty and
   * a word is wanted; indexes in range are what the generator promises.
   */
  predicate PicksInRange(words: seq<string>, picks: seq<nat>) {
    forall i :: 0 <= i < |picks| ==> picks[i] < |words|
  }

  function PickedWords(words: seq<string>, picks: seq<nat>): (ws: seq<string>)
    requires PicksInRange(words, picks)
    ensures |ws| == |picks| && forall i :: 0 <= i < |picks| ==> ws[i] == words[picks[i]]
  {
    seq(|picks|, i requires 0 <= i < |picks| => words[picks[i]])
  }

  /**
   * `new(words_number)`: `DictionnaryNotFound` when the dictionary cannot be
   * read, otherwise `words_number` dictionary lines joined with `-`.
   */
  function New(wordsNumber: nat, dictionary: Option<string>, picks: seq<nat>): (r: Result<KeyPhrase, ServerError>)
    requires dictionary.Some? ==> |picks| == wordsNumber && PicksInRange(Lines(dictionary.value), picks)
    ensures r.Err? <==> dictionary.None?
    ensures r.Err? ==> r.error == DictionnaryNotFound
    ensures r.Ok? ==> r.value.text == Join(PickedWords(Lines(dictionary.value), picks), '-')
  {
    match dictionary
    case None => Err(DictionnaryNotFound)
    case Some(text) => Ok(KeyPhrase(Join(PickedWords(Lines(text), picks), '-')))
  }

  /** With a dictionary free of `-`, a generated twenty-word phrase passes the check and splits back into its words. */
  lemma NewIsKeyPhrase(dictionary: string, picks: seq<nat>)
    requires '-' !in dictionary
    requires |picks| == KEY_PHRASE_LEN && PicksInRange(Lines(dictionary), picks)
    ensures New(KEY_PHRASE_LEN, Some(dictionary), picks).Ok?
    ensures IsKeyPhrase(New(KEY_PHRASE_LEN, Some(dictionary), picks).value.text)
    ensures Split(New(KEY_PHRASE_LEN, Some(dictionary), picks).value.text, '-') == PickedWords(Lines(dictionary), picks)
  {
    LinesKeepAbsent(dictionary, '-');
    var ws := PickedWords(Lines(dictionary), picks);
    SplitJoin(ws, '-');
  }

  // ---- hash --------------------------------------------------------------------

  /** A failure of `hash`: a listed server error, or a `Custom` one printing as its message. */
  datatype HashFailure = Failure(e: ServerError) | Custom(msg: string)

  /** `to_string` of a hash failure. */
  function FailureText(f: HashFailure): string {
    match f
    case Failure(e) => Name(e)
    case Custom(msg) => msg
  }

  /** Fewer rounds than this are refused. */
  const MIN_HASH_ROUND := 5
  const UNSAFE_ROUNDS := "hash round not safe enough"

  /** The largest `usize` of a 64-bit target. */
  const USIZE_MAX := 0xFFFF_FFFF_FFFF_FFFF

  /**
   * Rust `usize::from_str`: an optional `+`, then at least one ASCII digit and
   * nothing else, with a value that fits a `usize`.
   */
  function ParseUsize(s: string): (r: Option<nat>)
    ensures r.Some? ==> r.value <= USIZE_MAX
    ensures r.Some? ==> |s| > 0 && (s[0] == '+' || IsDigit(s[0], 10))
  {
    var digits := if |s| > 0 && s[0] == '+' then s[1..] else s;
    if |digits| == 0 then None
    else if exists i :: 0 <= i < |digits| && !IsDigit(digits[i], 10) then None
    else if DigitsValue(digits, 10) > USIZE_MAX then None
    else Some(DigitsValue(digits, 10))
  }

  /** The numeral of any `usize` parses back to it, with or without a `+`. */
  lemma ParseUsizeDecimal(n: nat)
    requires n <= USIZE_MAX
    ensures ParseUsize(DecimalText(n)) == Some(n)
    ensures ParseUsize("+" + DecimalText(n)) == Some(n)
  {
    DecimalTextValue(n);
    var d := DecimalText(n);
    assert d[0] != '+';
    assert !exists i :: 0 <= i < |d| && !IsDigit(d[i], 10);
    assert ("+" + d)[0] == '+' && ("+" + d)[1..] == d;
  }

  /** Signs other than one leading `+`, white space and an empty text are refused. */
  lemma ParseUsizeRejects(n: nat)
    ensures ParseUsize("") == None && ParseUsize("+") == None
    ensures ParseUsize("-" + DecimalText(n)) == None
    ensures ParseUsize(" " + DecimalText(n)) == None
  {
    assert !IsDigit(("-" + DecimalText(n))[0], 10);
    assert !IsDigit((" " + DecimalText(n))[0], 10);
  }

  /** The number of rounds `hash` reads from `HASH_ROUND`, or why it cannot. */
  function HashRound(env: Option<string>): (r: Result<nat, HashFailure>)
    ensures env.None? ==> r == Err(Failure(EnvVarNotFound))
    ensures env.Some? && ParseUsize(env.value).None? ==> r == Err(Failure(ParseError))
    ensures env.Some? && ParseUsize(env.value).Some? && ParseUsize(env.value).value < MIN_HASH_ROUND ==>
      r == Err(Custom(UNSAFE_ROUNDS))
    ensures r.Ok? <==> env.Some? && ParseUsize(env.value).Some? && ParseUsize(env.value).value >= MIN_HASH_ROUND
    ensures r.Ok? ==> r.value == ParseUsize(env.value).value
  {
    match env
    case None => Err(Failure(EnvVarNotFound))
    case Some(text) =>
      match ParseUsize(text)
      case None => Err(Failure(ParseError))
      case Some(n) => if n < MIN_HASH_ROUND then Err(Custom(UNSAFE_ROUNDS)) else Ok(n)
  }

  /** `sha` applied `n` times, starting from `s`. */
  function Iterate(sha: string -> string, s: string, n: nat): string
    decreases n
  {
    if n == 0 then s else sha(Iterate(sha, s, n - 1))
  }

  /** Hashing in two batches of rounds is hashing once with all of them. */
  lemma {:induction false} IterateAdd(sha: string -> string, s: string, a: nat, b: nat)
    ensures Iterate(sha, Iterate(sha, s, a), b) == Iterate(sha, s, a + b)
    decreases b
  {
    if b > 0 {
      IterateAdd(sha, s, a, b - 1);
    }
  }

  /** What `hash` yields: the phrase hashed `HASH_ROUND` times, or the failure. */
  function HashOf(kp: KeyPhrase, env: Option<string>, sha: string -> string): (r: Result<string, HashFailure>)
    ensures r.Err? <==> HashRound(env).Err?
    ensures r.Err? ==> r.error == HashRound(env).error
    ensures r.Ok? ==> r.value == Iterate(sha, kp.text, HashRound(env).value)
  {
    match HashRound(env)
    case Err(f) => Err(f)
    case Ok(n) => Ok(Iterate(sha, kp.text, n))
  }

  /** `hash`: the round guard, then the round loop, each round hashing the previous hex digest. */
  method Hash(kp: KeyPhrase, env: Option<string>, sha: string -> string) returns (r: Result<string, HashFailure>)
    ensures r == HashOf(kp, env, sha)
  {
    var rounds := HashRound(env);
    if rounds.Err? {
      return Err(rounds.error);
    }
    var result := kp.text;
    var i := 0;
    while i < rounds.value
      invariant 0 <= i <= rounds.value
      invariant result == Iterate(sha, kp.text, i)
    {
      result := sha(result);
      i := i + 1;
    }
    r := Ok(result);
  }

  /** A phrase is hashed at least five times, whatever `HASH_ROUND` holds. */
  lemma HashHasFiveRounds(kp: KeyPhrase, env: Option<string>, sha: string -> string)
    requires HashOf(kp, env, sha).Ok?
    ensures exists rest: nat {:trigger Iterate(sha, Iterate(sha, kp.text, MIN_HASH_ROUND), rest)} ::
      HashOf(kp, env, sha).value == Iterate(sha, Iterate(sha, kp.text, MIN_HASH_ROUND), rest)
  {
    var n := HashRound(env).value;
    IterateAdd(sha, kp.text, MIN_HASH_ROUND, n - MIN_HASH_ROUND);
  }

  /** `verify`: false for a malformed phrase or a failed hash, otherwise whether the hashes match. */
  function Verify(rightKpHash: string, kpToVerify: string, env: Option<string>, sha: string -> string): (b: bool)
    ensures !IsKeyPhrase(kpToVerify) ==> !b
    ensures HashRound(env).Err? ==> !b
    ensures b <==> IsKeyPhrase(kpToVerify) && HashOf(KeyPhrase(kpToVerify), env, sha) == Ok(rightKpHash)
  {
    match TryFrom(kpToVerify)
    case Err(_) => false
    case Ok(kp) =>
      match HashOf(kp, env, sha)
      case Err(_) => false
      case Ok(h) => h == rightKpHash
  }

  /** A phrase verifies against its own hash, and against nothing else when the hash is one-to-one. */
  lemma VerifyOwnHash(kp: string, other: string, env: Option<string>, sha: string -> string)
    requires IsKeyPhrase(kp) && HashRound(env).Ok?
    ensures Verify(HashOf(KeyPhrase(kp), env, sha).value, kp, env, sha)
    ensures other != HashOf(KeyPhrase(kp), env, sha).value ==> !Verify(other, kp, env, sha)
  {
  }
}
