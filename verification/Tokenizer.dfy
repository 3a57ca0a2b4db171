/** Command lines (memcached.c): tokenize_command on the buffer it cuts up, and the key loop
    of the get command that calls it again for what did not fit. */
module Tokenizer {
  import opened Seqs

  const MAX_TOKENS: nat := 8
  const KEY_MAX_LENGTH: nat := 250

  /** A token: where it starts, NULL for the end of the line, and how long it is. */
  datatype Token = Token(value: Option<nat>, length: nat)

  // ----- what a line means

  /** How many characters come before the first space. */
  function WordLength(s: string): (n: nat)
    ensures n <= |s| && (n < |s| ==> s[n] == ' ') && forall i :: 0 <= i < n ==> s[i] != ' '
  {
    if s == "" || s[0] == ' ' then 0 else 1 + WordLength(s[1..])
  }

  /** The words of a line: the longest runs of characters that are not spaces. */
  function Words(s: string): (w: seq<string>)
    ensures forall x :: x in w ==> x != "" && ' ' !in x
    decreases |s|
  {
    if s == "" then []
    else if s[0] == ' ' then Words(s[1..])
    else [s[..WordLength(s)]] + Words(s[WordLength(s)..])
  }

  lemma {:induction false} WordLengthIs(s: string, n: nat)
    requires n <= |s| && (n < |s| ==> s[n] == ' ') && forall i :: 0 <= i < n ==> s[i] != ' '
    ensures WordLength(s) == n
  {
    if n > 0 { WordLengthIs(s[1..], n - 1); }
  }

  /** A word, the space after it, and the rest. */
  lemma FirstWord(s: string, n: nat)
    requires 0 < n < |s| && s[n] == ' ' && forall i :: 0 <= i < n ==> s[i] != ' '
    ensures Words(s) == [s[..n]] + Words(s[n + 1..])
  {
    WordLengthIs(s, n);
    assert s[n..][1..] == s[n + 1..];
  }

  lemma LastWord(s: string)
    requires s != "" && forall i :: 0 <= i < |s| ==> s[i] != ' '
    ensures Words(s) == [s]
  {
    WordLengthIs(s, |s|);
    assert s[..|s|] == s && s[|s|..] == "";
  }

  // ----- the buffer

  /** s is the string that starts at p. */
  ghost predicate Holds(a: seq<char>, p: nat, s: string) {
    p + |s| < |a| && a[p + |s|] == '\0' && a[p..p + |s|] == s && '\0' !in s
  }

  method StrLen(a: array<char>, p: nat, ghost s: string) returns (n: nat)
    requires Holds(a[..], p, s)
    ensures n == |s|
  {
    n := 0;
    while a[p + n] != '\0'
      invariant n <= |s|
      decreases |s| - n
    {
      n := n + 1;
    }
    HoldsAt(a[..], p, s, n);
  }

  lemma HoldsAt(a: seq<char>, p: nat, s: string, k: nat)
    requires Holds(a, p, s) && k <= |s|
    ensures a[p + k] == '\0' <==> k == |s|
    ensures k < |s| ==> a[p + k] == s[k]
  {
    if k < |s| { assert a[p..p + |s|][k] == a[p + k]; }
  }

  /** The token is the word w, ended by a NUL before `bound`. */
  ghost predicate IsWord(a: seq<char>, t: Token, w: string, bound: nat) {
    && t.value.Some? && t.length == |w| > 0 && t.value.value + t.length < bound <= |a|
    && a[t.value.value..t.value.value + t.length] == w && a[t.value.value + t.length] == '\0'
  }

  /** The first tokens are these words. */
  ghost predicate Tokens(a: seq<char>, tokens: seq<Token>, words: seq<string>, bound: nat) {
    && |words| <= |tokens| && bound <= |a|
    && forall i :: 0 <= i < |words| ==> IsWord(a, tokens[i], words[i], bound)
  }

  lemma TokensKept(a: seq<char>, b: seq<char>, tokens: seq<Token>, words: seq<string>, bound: nat, bound': nat)
    requires Tokens(a, tokens, words, bound) && |b| == |a| && bound <= bound' <= |a|
    requires forall j :: 0 <= j < bound ==> b[j] == a[j]
    ensures Tokens(b, tokens, words, bound')
  {
    forall i | 0 <= i < |words| ensures IsWord(b, tokens[i], words[i], bound') {
      assert IsWord(a, tokens[i], words[i], bound);
    }
  }

  lemma TokensMore(a: seq<char>, tokens: seq<Token>, words: seq<string>, bound: nat, t: Token, w: string)
    requires Tokens(a, tokens, words, bound) && |words| < |tokens| && IsWord(a, t, w, bound)
    ensures Tokens(a, tokens[|words| := t], words + [w], bound)
  {
  }

  lemma SkipSpace(line: string, k: nat)
    requires k < |line| && line[k] == ' '
    ensures Words(line[k..]) == Words(line[k + 1..])
  {
    assert line[k..][1..] == line[k + 1..];
  }

  lemma TakeWord(line: string, k: nat, m: nat)
    requires k < m < |line| && line[m] == ' ' && forall i :: k <= i < m ==> line[i] != ' '
    ensures Words(line[k..]) == [line[k..m]] + Words(line[m + 1..])
  {
    FirstWord(line[k..], m - k);
    assert line[k..][..m - k] == line[k..m] && line[k..][m - k + 1..] == line[m + 1..];
  }

  /** One token is noted and its end marked in the buffer. */
  method Note(a: array<char>, tokens: array<Token>, n: nat, s: nat, e: nat, ghost words: seq<string>)
    requires n == |words| < tokens.Length && s < e < a.Length
    requires Tokens(a[..], tokens[..], words, s)
    modifies a, tokens
    ensures a[..] == old(a[..])[e := '\0']
    ensures Tokens(a[..], tokens[..], words + [old(a[..])[s..e]], e + 1)
  {
    ghost var (was, list) := (a[..], tokens[..]);
    tokens[n] := Token(Some(s), e - s);
    a[e] := '\0';
    TokensKept(was, a[..], list, words, s, e + 1);
    assert a[..] == was[e := '\0'] && tokens[..] == list[n := Token(Some(s), e - s)];
    assert a[..][s..e] == was[s..e];
    TokensMore(a[..], list, words, e + 1, Token(Some(s), e - s), was[s..e]);
  }

  /** In the middle of a scan: the words before s are noted, the current word is line[s..e],
      and the buffer from s on is as it was. */
  ghost predicate Scanned(was: seq<char>, a: seq<char>, command: nat, line: string, s: nat, e: nat,
                          tokens: seq<Token>, words: seq<string>)
  {
    && Holds(was, command, line) && |a| == |was| && s <= e <= |line|
    && Words(line) == words + Words(line[s..])
    && (forall j :: s <= j < e ==> line[j] != ' ')
    && (forall j :: 0 <= j < |a| && !(command <= j < command + s) ==> a[j] == was[j])
    && Tokens(a, tokens, words, command + s)
  }

  lemma ScanStart(was: seq<char>, command: nat, line: string, tokens: seq<Token>)
    requires Holds(was, command, line)
    ensures Scanned(was, was, command, line, 0, 0, tokens, [])
  {
    assert line[0..] == line;
  }

  lemma ScanFacts(was: seq<char>, a: seq<char>, command: nat, line: string, s: nat, e: nat,
                  tokens: seq<Token>, words: seq<string>)
    requires Scanned(was, a, command, line, s, e, tokens, words)
    ensures |words| <= |tokens| && Tokens(a, tokens, words, command + s)
    ensures command + |line| < |a| && a[command + s..command + e] == line[s..e]
    ensures a[command + e] == if e == |line| then '\0' else line[e]
    ensures e < |line| ==> line[e] != '\0'
  {
    HoldsAt(was, command, line, e);
    Untouched(was, a, command, line, s, e);
    assert a[command + e] == was[command + e];
  }

  lemma Untouched(was: seq<char>, a: seq<char>, command: nat, line: string, s: nat, e: nat)
    requires Holds(was, command, line) && |a| == |was| && s <= e <= |line|
    requires forall j :: command + s <= j < |a| ==> a[j] == was[j]
    ensures a[command + s..command + e] == line[s..e]
  {
    forall k | s <= k < e ensures a[command + k] == line[k] {
      assert was[command..command + |line|][k] == was[command + k];
    }
    var (x, y) := (a[command + s..command + e], line[s..e]);
    forall k | 0 <= k < |x| ensures x[k] == y[k] {
      assert x[k] == a[command + (s + k)] && y[k] == line[s + k];
    }
  }

  /** The next character belongs to the current word. */
  lemma ScanOn(was: seq<char>, a: seq<char>, command: nat, line: string, s: nat, e: nat,
               tokens: seq<Token>, words: seq<string>)
    requires Scanned(was, a, command, line, s, e, tokens, words) && e < |line| && line[e] != ' '
    ensures Scanned(was, a, command, line, s, e + 1, tokens, words)
  {
  }

  /** A space after a space. */
  lemma ScanSpace(was: seq<char>, a: seq<char>, command: nat, line: string, e: nat,
                  tokens: seq<Token>, words: seq<string>)
    requires Scanned(was, a, command, line, e, e, tokens, words) && e < |line| && line[e] == ' '
    ensures Scanned(was, a, command, line, e + 1, e + 1, tokens, words)
  {
    SkipSpace(line, e);
    TokensKept(a, a, tokens, words, command + e, command + e + 1);
  }

  /** A space ends a word, which has been noted. */
  lemma ScanWord(was: seq<char>, a: seq<char>, command: nat, line: string, s: nat, e: nat,
                 tokens: seq<Token>, words: seq<string>, tokens': seq<Token>)
    requires Scanned(was, a, command, line, s, e, tokens, words) && s < e < |line| && line[e] == ' '
    requires Tokens(a[command + e := '\0'], tokens', words + [line[s..e]], command + e + 1)
    ensures Scanned(was, a[command + e := '\0'], command, line, e + 1, e + 1, tokens', words + [line[s..e]])
  {
    TakeWord(line, s, e);
    assert words + ([line[s..e]] + Words(line[e + 1..])) == words + [line[s..e]] + Words(line[e + 1..]);
  }

  /** The loop of tokenize_command: s and e are where its pointers stop, as offsets. */
  method ScanWords(a: array<char>, command: nat, tokens: array<Token>, maxTokens: nat, ghost line: string)
      returns (n: nat, s: nat, e: nat, ghost words: seq<string>)
    requires maxTokens > 1 && tokens.Length >= maxTokens && Holds(a[..], command, line)
    modifies a, tokens
    ensures n == |words| <= maxTokens - 1
    ensures Scanned(old(a[..]), a[..], command, line, s, e, tokens[..], words)
    ensures if n == maxTokens - 1 then s == e > 0 else e == |line|
  {
    hide Scanned, Tokens, Words;
    ghost var was := a[..];
    var len := StrLen(a, command, line);
    s, e, n, words := 0, 0, 0, [];
    ScanStart(was, command, line, tokens[..]);
    while e < len
      invariant e <= len == |line| && n == |words| < maxTokens - 1
      invariant Scanned(was, a[..], command, line, s, e, tokens[..], words)
      decreases len - e
    {
      ScanFacts(was, a[..], command, line, s, e, tokens[..], words);
      ghost var (before, list) := (a[..], tokens[..]);
      if a[command + e] == ' ' {
        if s != e {
          Bounds(was, before, command, line, s, e, list, words);
          Note(a, tokens, n, command + s, command + e, words);
          ScanWord(was, before, command, line, s, e, list, words, tokens[..]);
          words := words + [line[s..e]];
          n := n + 1;
          if n == maxTokens - 1 {
            e := e + 1;
            s := e;
            return;
          }
        } else {
          ScanSpace(was, before, command, line, e, list, words);
        }
        s := e + 1;
      } else {
        ScanOn(was, before, command, line, s, e, list, words);
      }
      e := e + 1;
    }
  }

  lemma Bounds(was: seq<char>, a: seq<char>, command: nat, line: string, s: nat, e: nat,
               tokens: seq<Token>, words: seq<string>)
    requires Scanned(was, a, command, line, s, e, tokens, words)
    ensures s <= e <= |line|
  {
  }

  /** tokenize_command.  The tokens are the first words of the line, at most one fewer than
      there is room for; the last one marks the end, or where the rest begins. */
  method TokenizeCommand(a: array<char>, command: nat, tokens: array<Token>, maxTokens: nat, ghost line: string)
      returns (ntokens: nat, ghost rest: string)
    requires maxTokens > 1 && tokens.Length >= maxTokens && Holds(a[..], command, line)
    modifies a, tokens
    ensures 1 <= ntokens <= maxTokens && ntokens - 1 <= |Words(line)|
    ensures |rest| <= |line| && rest == line[|line| - |rest|..]
    ensures Tokens(a[..], tokens[..], Words(line)[..ntokens - 1],
                   command + |line| - |rest| + if rest == "" then 1 else 0)
    ensures Words(rest) == Words(line)[ntokens - 1..]
    ensures tokens[ntokens - 1] == Token(if rest == "" then None else Some(command + |line| - |rest|), 0)
    ensures rest != "" ==> ntokens == maxTokens && |rest| < |line| && Holds(a[..], command + |line| - |rest|, rest)
    ensures forall j :: 0 <= j < a.Length && !(command <= j < command + |line|) ==> a[j] == old(a[j])
  {
    hide Words, Tokens;
    ghost var was := a[..];
    var n, s, e, words := ScanWords(a, command, tokens, maxTokens, line);
    ScanFacts(was, a[..], command, line, s, e, tokens[..], words);
    rest := line[e..];
    ScanDone(was, a[..], command, line, s, e, tokens[..], words);
    ghost var list := tokens[..];
    if s != e {
      tokens[n] := Token(Some(command + s), e - s);
      assert tokens[..] == list[n := Token(Some(command + s), e - s)];
      words := words + [line[s..]];
      list := tokens[..];
      n := n + 1;
    }
    tokens[n] := Token(if a[command + e] == '\0' then None else Some(command + e), 0);
    TokensElsewhere(a[..], list, tokens[..], words, command + e + if e == |line| then 1 else 0);
    assert Words(line)[..n] == words && Words(line)[n..] == Words(rest);
    ntokens := n + 1;
  }

  /** The scan has come to its end: the last word, if the line does not end in a space, and
      the rest of the line. */
  lemma ScanDone(was: seq<char>, a: seq<char>, command: nat, line: string, s: nat, e: nat,
                 tokens: seq<Token>, words: seq<string>)
    requires Scanned(was, a, command, line, s, e, tokens, words) && (s == e || e == |line|) && |words| < |tokens|
    ensures s <= e <= |line|
    ensures var more := s != e;
      var bound := command + e + if e == |line| then 1 else 0;
      && Tokens(a, if more then tokens[|words| := Token(Some(command + s), e - s)] else tokens,
                if more then words + [line[s..]] else words, bound)
      && Words(line) == (if more then words + [line[s..]] else words) + Words(line[e..])
    ensures e < |line| ==> Holds(a, command + e, line[e..])
    ensures forall j :: 0 <= j < |a| && !(command <= j < command + |line|) ==> a[j] == was[j]
  {
    hide Tokens, Words, Scanned, IsWord, Holds;
    ScanParts(was, a, command, line, s, e, tokens, words);
    if s != e {
      ScanLastWord(was, a, command, line, s, tokens, words);
      LineEnd(line, s, words);
    } else {
      ScanRest(was, a, command, line, e, tokens, words);
    }
  }

  lemma ScanLastWord(was: seq<char>, a: seq<char>, command: nat, line: string, s: nat, tokens: seq<Token>,
                     words: seq<string>)
    requires Scanned(was, a, command, line, s, |line|, tokens, words) && s < |line| && |words| < |tokens|
    ensures Tokens(a, tokens[|words| := Token(Some(command + s), |line| - s)], words + [line[s..]],
        command + |line| + 1)
  {
    hide Tokens, Words, Scanned, IsWord, Holds;
    ScanFacts(was, a, command, line, s, |line|, tokens, words);
    ScanParts(was, a, command, line, s, |line|, tokens, words);
    LineEnd(line, s, words);
    LastIsWord(a, command, line, s);
    TokensKept(a, a, tokens, words, command + s, command + |line| + 1);
    TokensMore(a, tokens, words, command + |line| + 1, Token(Some(command + s), |line| - s), line[s..]);
  }

  lemma ScanRest(was: seq<char>, a: seq<char>, command: nat, line: string, e: nat, tokens: seq<Token>,
                 words: seq<string>)
    requires Scanned(was, a, command, line, e, e, tokens, words)
    ensures command + |line| < |a| && Tokens(a, tokens, words, command + e + if e == |line| then 1 else 0)
    ensures e < |line| ==> Holds(a, command + e, line[e..])
  {
    hide Tokens, Words;
    TokensKept(a, a, tokens, words, command + e, command + e + if e == |line| then 1 else 0);
    Untouched(was, a, command, line, e, |line|);
    assert line[e..|line|] == line[e..];
  }

  lemma ScanParts(was: seq<char>, a: seq<char>, command: nat, line: string, s: nat, e: nat,
                  tokens: seq<Token>, words: seq<string>)
    requires Scanned(was, a, command, line, s, e, tokens, words)
    ensures Holds(was, command, line) && |a| == |was| && s <= e <= |line|
    ensures Words(line) == words + Words(line[s..]) && forall j :: s <= j < e ==> line[j] != ' '
    ensures forall j :: 0 <= j < |a| && !(command <= j < command + s) ==> a[j] == was[j]
  {
  }

  lemma LastIsWord(a: seq<char>, command: nat, line: string, s: nat)
    requires s < |line| && command + |line| < |a| && a[command + |line|] == '\0'
    requires a[command + s..command + |line|] == line[s..|line|]
    ensures IsWord(a, Token(Some(command + s), |line| - s), line[s..], command + |line| + 1)
  {
  }

  lemma LineEnd(line: string, s: nat, words: seq<string>)
    requires s < |line| && forall j :: s <= j < |line| ==> line[j] != ' '
    ensures line[s..|line|] == line[s..] && Words(line[s..]) == [line[s..]] && Words(line[|line|..]) == []
    ensures words + [line[s..]] + Words(line[|line|..]) == words + Words(line[s..])
  {
    LastWord(line[s..]);
    assert line[|line|..] == "";
  }

  lemma TokensElsewhere(a: seq<char>, list: seq<Token>, list': seq<Token>, words: seq<string>, bound: nat)
    requires Tokens(a, list, words, bound) && |list'| == |list|
    requires forall i :: 0 <= i < |words| ==> list'[i] == list[i]
    ensures Tokens(a, list', words, bound)
  {
  }

  // ----- the get command

  function Text(a: array<char>, t: Token): string
    requires t.value.Some? && t.value.value + t.length <= a.Length
    reads a
  {
    a[t.value.value..t.value.value + t.length]
  }

  lemma NoEmptyToken(a: seq<char>, tokens: seq<Token>, batch: seq<string>, bound: nat)
    requires Tokens(a, tokens, batch, bound)
    ensures forall i :: 0 <= i < |batch| ==> tokens[i].length > 0
  {
    forall i | 0 <= i < |batch| ensures tokens[i].length > 0 { assert IsWord(a, tokens[i], batch[i], bound); }
  }

  /** The tokens from t on: the keys among them, and whether one is too long. */
  method TakeKeys(a: array<char>, tokens: array<Token>, ghost batch: seq<string>, ghost bound: nat, first: nat)
      returns (keys: seq<string>, t: nat, ok: bool)
    requires Tokens(a[..], tokens[..], batch, bound) && first <= |batch| < tokens.Length && tokens[|batch|].length == 0
    ensures forall k :: k in keys ==> |k| <= KEY_MAX_LENGTH
    ensures t == first + |keys| <= |batch| && keys == batch[first..t]
    ensures ok ==> t == |batch|
    ensures !ok ==> t < |batch| && |batch[t]| > KEY_MAX_LENGTH
  {
    keys, t := [], first;
    NoEmptyToken(a[..], tokens[..], batch, bound);
    while tokens[t].length != 0
      invariant first <= t <= |batch| && keys == batch[first..t]
      invariant forall k :: k in keys ==> |k| <= KEY_MAX_LENGTH
      decreases |batch| - t
    {
      assert t < |batch|;
      assert IsWord(a[..], tokens[..][t], batch[t], bound);
      if tokens[t].length > KEY_MAX_LENGTH {
        return keys, t, false;
      }
      assert a[..][tokens[t].value.value..tokens[t].value.value + tokens[t].length] == Text(a, tokens[t]);
      keys := keys + [Text(a, tokens[t])];
      t := t + 1;
    }
    ok := true;
  }

  /** A batch of tokens: words in front, and the end of the line or where the rest begins. */
  ghost predicate Batch(a: seq<char>, tokens: seq<Token>, batch: seq<string>, bound: nat, rest: string) {
    && |batch| < MAX_TOKENS == |tokens| && Tokens(a, tokens, batch, bound)
    && tokens[|batch|] == Token(if rest == "" then None else Some(bound), 0)
    && (rest != "" ==> Holds(a, bound, rest))
  }

  method NextBatch(a: array<char>, command: nat, tokens: array<Token>, ghost line: string)
      returns (n: nat, ghost batch: seq<string>, ghost bound: nat, ghost rest: string)
    requires tokens.Length == MAX_TOKENS && Holds(a[..], command, line)
    modifies a, tokens
    ensures Batch(a[..], tokens[..], batch, bound, rest) && n == |batch|
    ensures Words(line) == batch + Words(rest)
    ensures line != "" ==> |rest| < |line|
    ensures rest != "" ==> |batch| == MAX_TOKENS - 1
  {
    hide Words, Tokens;
    EmptyLine();
    var k, r := TokenizeCommand(a, command, tokens, MAX_TOKENS, line);
    n := k - 1;
    rest := r;
    batch := Words(line)[..n];
    bound := command + |line| - |rest| + if rest == "" then 1 else 0;
  }

  /** process_get_command, as far as the keys go: the line is tokenized again and again from
      where the last tokens left off.  Every word after the command is visited once, in
      order, unless one is too long to be a key. */
  method ProcessGetCommand(a: array<char>, command: nat, ghost line: string) returns (keys: seq<string>, isGet: bool,
                           ok: bool)
    requires Holds(a[..], command, line)
    modifies a
    ensures isGet <==> |Words(line)| >= 2
    ensures forall k :: k in keys ==> |k| <= KEY_MAX_LENGTH
    ensures isGet && ok ==> keys == Words(line)[1..]
    ensures isGet && !ok ==>
      1 + |keys| < |Words(line)| && keys == Words(line)[1..1 + |keys|] && |Words(line)[1 + |keys|]| > KEY_MAX_LENGTH
    ensures !isGet ==> keys == []
  {
    hide Words, Tokens, Holds;
    EmptyLine();
    var tokens := new Token[MAX_TOKENS](_ => Token(None, 0));
    ghost var all := Words(line);
    var n, batch, bound, rest := NextBatch(a, command, tokens, line);
    keys, ok, isGet := [], true, n >= 2;
    if !isGet { return; }
    var t, more := 1, true;
    while more
      invariant 0 <= t <= |batch| && Batch(a[..], tokens[..], batch, bound, rest)
      invariant forall k :: k in keys ==> |k| <= KEY_MAX_LENGTH
      invariant all[1..] == keys + batch[t..] + Words(rest)
      invariant !more ==> t == |batch| && rest == ""
      decreases |rest|, more
    {
      ghost var before := keys;
      var some, at, fine := TakeKeys(a, tokens, batch, bound, t);
      keys := keys + some;
      Visited(all[1..], before, batch, t, at, Words(rest));
      if !fine { return keys, true, false; }
      t := at;
      if tokens[t].value.Some? {
        assert batch[t..] == [];
        n, batch, bound, rest := NextBatch(a, tokens[t].value.value, tokens, rest);
        t := 0;
        assert batch[0..] == batch;
      }
      BatchHead(a[..], tokens[..], batch, bound, rest);
      more := tokens[t].value.Some?;
    }
    assert batch[t..] == [];
  }

  lemma BatchHead(a: seq<char>, tokens: seq<Token>, batch: seq<string>, bound: nat, rest: string)
    requires Batch(a, tokens, batch, bound, rest)
    ensures |batch| > 0 ==> tokens[0].value.Some?
  {
    if |batch| > 0 { FirstToken(a, tokens, batch, bound); }
  }

  lemma FirstToken(a: seq<char>, tokens: seq<Token>, batch: seq<string>, bound: nat)
    requires Tokens(a, tokens, batch, bound) && |batch| > 0
    ensures IsWord(a, tokens[0], batch[0], bound)
  {
  }

  lemma EmptyLine()
    ensures Words("") == []
  {
  }

  lemma Visited(all: seq<string>, before: seq<string>, batch: seq<string>, t: nat, at: nat, later: seq<string>)
    requires t <= at <= |batch| && all == before + batch[t..] + later
    ensures all == before + batch[t..at] + batch[at..] + later
    ensures at < |batch| ==> |before + batch[t..at]| < |all| && all[|before + batch[t..at]|] == batch[at]
    ensures all[..|before + batch[t..at]|] == before + batch[t..at]
  {
    assert batch[t..] == batch[t..at] + batch[at..];
  }
}
