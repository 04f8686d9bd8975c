/**
  * What the shell's parser means (user/sh.c): printing a command tree with every subtree in parentheses and
  * parsing the line gives the tree back, and nulterminate turns every word of it into a C string in place.
  */
module ShellText {
  import opened ShellParser

  type Text = seq<char>

  // ---------------------------------------------------------------- printing

  function Join(words: seq<Text>): (r: Text) { if words == [] then [] else words[0] + [' '] + Join(words[1..]) }

  function Arrow(m: Mode): (r: Text) {
    match m
    case In => ['<']
    case Out => ['>']
    case Append => ['>', '>']
  }

  function Print(c: Tree<Text>): (r: Text)
    decreases c, 1
  { ['('] + Body(c) + [')'] }

  function Body(c: Tree<Text>): (r: Text)
    decreases c, 0
  {
    match c
    case Exec(args) => Join(args)
    case Redir(d, file, mode) => Print(d) + Arrow(mode) + file
    case Pipe(l, r) => Print(l) + ['|'] + Print(r)
    case List(l, r) => Print(l) + [';'] + Print(r)
    case Back(d) => Print(d) + ['&']
  }

  predicate IsWord(w: Text) { w != [] && forall k :: 0 <= k < |w| ==> WordChar(w[k]) }

  /** What the parser can produce: at most MAXARGS - 1 arguments, words of word characters. */
  predicate Printable(c: Tree<Text>) {
    match c
    case Exec(args) => |args| < MAXARGS && forall k :: 0 <= k < |args| ==> IsWord(args[k])
    case Redir(d, file, _) => Printable(d) && IsWord(file)
    case Pipe(l, r) => Printable(l) && Printable(r)
    case List(l, r) => Printable(l) && Printable(r)
    case Back(d) => Printable(d)
  }

  // ---------------------------------------------------------------- what a parsed tree says

  function Cut(b: Text, s: Span): (w: Text) { if s.q <= s.eq <= |b| then b[s.q..s.eq] else [] }

  function Cuts(b: Text, spans: seq<Span>): (r: seq<Text>)
    ensures |r| == |spans|
  { seq(|spans|, k requires 0 <= k < |spans| => Cut(b, spans[k])) }

  function Said(b: Text, t: Tree<Span>): (c: Tree<Text>) {
    match t
    case Exec(args) => Exec(Cuts(b, args))
    case Redir(d, file, mode) => Redir(Said(b, d), Cut(b, file), mode)
    case Pipe(l, r) => Pipe(Said(b, l), Said(b, r))
    case List(l, r) => List(Said(b, l), Said(b, r))
    case Back(d) => Back(Said(b, d))
  }

  // ---------------------------------------------------------------- reading printed text

  predicate Reads(b: Text, i: nat, x: Text) { i + |x| <= |b| && b[i..i + |x|] == x }

  lemma ReadsSplit(b: Text, i: nat, x: Text, y: Text)
    requires Reads(b, i, x + y)
    ensures Reads(b, i, x) && Reads(b, i + |x|, y)
  {
    assert b[i..i + |x|] == b[i..i + |x + y|][..|x|];
    assert b[i + |x|..i + |x| + |y|] == b[i..i + |x + y|][|x|..];
  }

  /** Position i holds c, which no blank skipping passes. */
  predicate Holds(b: Text, i: nat, c: char) { i < |b| && b[i] == c }

  predicate Stop(b: Text, i: nat) { i <= |b| && (i < |b| ==> !Blank(b[i])) }

  lemma ReadsChar(b: Text, i: nat, c: char)
    requires Reads(b, i, [c])
    ensures Holds(b, i, c)
  {
    assert b[i..i + 1][0] == c;
  }

  lemma StopSkip(b: Text, i: nat)
    requires Stop(b, i)
    ensures Skip(b, i) == i
  {}

  /** A symbol other than > is one token. */
  lemma SymbolToken(b: Text, i: nat, c: char)
    requires Holds(b, i, c) && Symbol(c) && c != '>' && Stop(b, i + 1)
    ensures TokenAt(b, i) == Token(Sym(c), i, i + 1, i + 1) && Stop(b, i)
    ensures forall toks :: Sees(b, i, toks) <==> c in toks
  {
    StopSkip(b, i + 1);
  }

  lemma {:induction false} WordRun(b: Text, i: nat, w: Text)
    requires Reads(b, i, w) && (forall k :: 0 <= k < |w| ==> WordChar(w[k]))
    requires i + |w| < |b| ==> !WordChar(b[i + |w|])
    ensures WordEnd(b, i) == i + |w|
    decreases |w|
  {
    if w != [] {
      assert b[i] == w[0] by { assert b[i..i + |w|][0] == w[0]; }
      assert w == [w[0]] + w[1..];
      ReadsSplit(b, i, [w[0]], w[1..]);
      WordRun(b, i + 1, w[1..]);
    }
  }

  /** A word up to a character that cannot continue it is one token, and is cut out whole. */
  lemma WordToken(b: Text, i: nat, w: Text)
    requires Reads(b, i, w) && IsWord(w) && (i + |w| < |b| ==> !WordChar(b[i + |w|]))
    ensures TokenAt(b, i) == Token(Word, i, i + |w|, Skip(b, i + |w|)) && Cut(b, Span(i, i + |w|)) == w
    ensures i < |b| && Stop(b, i) && WordChar(b[i])
  {
    assert b[i] == w[0] by { assert b[i..i + |w|][0] == w[0]; }
    WordRun(b, i, w);
  }

  lemma NotSymbol(b: Text, i: nat, toks: seq<char>)
    requires i < |b| && WordChar(b[i]) && forall c :: c in toks ==> Symbol(c)
    ensures !Sees(b, i, toks)
  {}

  // ---------------------------------------------------------------- parsing printed text

  /** The parse r ends at n and says c. */
  predicate Means(b: Text, r: Parsed, c: Tree<Text>, n: nat) { r.Ok? && r.next == n && Said(b, r.tree) == c }

  /** Body text at i, closed by a parenthesis. */
  predicate Closed(b: Text, i: nat, x: Text) { Reads(b, i, x) && Holds(b, i + |x|, ')') }

  lemma RedirsNone(b: Text, i: nat)
    requires Stop(b, i) && (i < |b| ==> b[i] != '<' && b[i] != '>')
    ensures RedirsAt(b, i) == Redirs([], i)
  {
    StopSkip(b, i);
  }

  /** The first of the joined words, its blank, and the rest. */
  lemma FirstWord(b: Text, i: nat, words: seq<Text>)
    requires words != [] && Closed(b, i, Join(words))
    ensures Reads(b, i, words[0]) && Holds(b, i + |words[0]|, ' ') && Closed(b, i + |words[0]| + 1, Join(words[1..]))
    ensures |Join(words)| == |words[0]| + 1 + |Join(words[1..])|
  {
    hide Reads;
    var w, rest := words[0], Join(words[1..]);
    assert Join(words) == (w + [' ']) + rest;
    ReadsSplit(b, i, w + [' '], rest);
    ReadsSplit(b, i, w, [' ']);
    ReadsChar(b, i + |w|, ' ');
  }

  lemma JoinStops(b: Text, i: nat, words: seq<Text>)
    requires Closed(b, i, Join(words)) && forall k :: 0 <= k < |words| ==> IsWord(words[k])
    ensures Stop(b, i) && i < |b| && (WordChar(b[i]) || b[i] == ')')
  {
    hide Reads, Join, IsWord, Stop, WordChar;
    if words == [] {
      JoinNone();
      CloseSeen(b, i);
    } else {
      FirstWord(b, i, words);
      SpaceEnds();
      WordToken(b, i, words[0]);
    }
  }

  lemma SpaceEnds()
    ensures !WordChar(' ')
  {}

  const NONE: seq<Redirect> := []

  lemma {:induction false} ArgsOk(b: Text, i: nat, got: seq<Span>, words: seq<Text>)
    requires Closed(b, i, Join(words)) && |got| + |words| < MAXARGS && forall k :: 0 <= k < |words| ==> IsWord(words[k])
    ensures var r := ArgsAt(b, i, got, []);
      r.Ok? && r.next == i + |Join(words)| && r.tree.Exec? && Cuts(b, r.tree.args) == Cuts(b, got) + words
    decreases |words|
  {
    hide Reads, Join, TokenAt, Skip, Sees, RedirsAt, IsWord, WordChar, Blank, Symbol, Stop, Cut, Holds;
    if words == [] {
      assert Join(words) == [] by { JoinNone(); }
      CloseSeen(b, i);
    } else {
      var w, n := words[0], i + |words[0]| + 1;
      FirstWord(b, i, words);
      JoinStops(b, n, words[1..]);
      ArgToken(b, i, w);
      RedirsNoneAtArg(b, n);
      var more := got + [Span(i, i + |w|)];
      ArgsOk(b, n, more, words[1..]);
      assert Cuts(b, more) == Cuts(b, got) + [w];
      assert [w] + words[1..] == words;
      assert NONE + NONE == NONE;
    }
  }

  lemma JoinNone()
    ensures Join([]) == []
  {}

  lemma CloseSeen(b: Text, i: nat)
    requires Holds(b, i, ')')
    ensures Sees(b, i, ['|', ')', '&', ';']) && Skip(b, i) == i && Stop(b, i)
    ensures !Sees(b, i, ['|']) && !Sees(b, i, ['&']) && !Sees(b, i, [';']) && !Sees(b, i, ['('])
  {}

  lemma ArgToken(b: Text, i: nat, w: Text)
    requires Reads(b, i, w) && IsWord(w) && Holds(b, i + |w|, ' ') && Stop(b, i + |w| + 1)
    ensures !Sees(b, i, ['|', ')', '&', ';']) && !Sees(b, i, ['(']) && Cut(b, Span(i, i + |w|)) == w
    ensures TokenAt(b, i) == Token(Word, i, i + |w|, i + |w| + 1)
  {
    WordToken(b, i, w);
    NotSymbol(b, i, ['|', ')', '&', ';']);
    NotSymbol(b, i, ['(']);
    StopSkip(b, i + |w| + 1);
  }

  lemma RedirsNoneAtArg(b: Text, i: nat)
    requires Stop(b, i) && i < |b| && (WordChar(b[i]) || b[i] == ')')
    ensures RedirsAt(b, i) == Redirs([], i)
  {
    RedirsNone(b, i);
  }

  /** What follows a block that is not redirected. */
  predicate After(b: Text, j: nat) { Stop(b, j) && (j < |b| ==> b[j] != '<' && b[j] != '>') }

  /** Ends a command: the end of the line or a symbol that starts nothing. */
  predicate Ends(b: Text, n: nat, x: seq<char>) { n == |b| || (n < |b| && Symbol(b[n]) && b[n] !in x) }

  lemma EndsUnseen(b: Text, n: nat, x: seq<char>)
    requires Ends(b, n, x)
    ensures !Sees(b, n, x) && Skip(b, n) == n
  {}

  lemma PrintParts(b: Text, i: nat, c: Tree<Text>)
    requires Reads(b, i, Print(c))
    ensures Holds(b, i, '(') && Closed(b, i + 1, Body(c)) && |Print(c)| == |Body(c)| + 2
  {
    hide Reads, Body;
    assert Print(c) == ['('] + (Body(c) + [')']);
    ReadsSplit(b, i, ['('], Body(c) + [')']);
    ReadsSplit(b, i + 1, Body(c), [')']);
    ReadsChar(b, i, '(');
    ReadsChar(b, i + 1 + |Body(c)|, ')');
  }

  lemma OpenStops(b: Text, i: nat)
    requires Holds(b, i, '(')
    ensures Stop(b, i) && i < |b| && After(b, i)
  {}

  lemma BodyStops(b: Text, i: nat, c: Tree<Text>)
    requires Printable(c) && Closed(b, i, Body(c))
    ensures Stop(b, i)
  {
    hide Reads, Join, Stop;
    match c {
      case Exec(args) => JoinStops(b, i, args);
      case Redir(d, file, mode) =>
        assert Body(c) == Print(d) + (Arrow(mode) + file);
        ReadsSplit(b, i, Print(d), Arrow(mode) + file);
        PrintParts(b, i, d);
        OpenStops(b, i);
      case Pipe(l, r) =>
        assert Body(c) == Print(l) + (['|'] + Print(r));
        ReadsSplit(b, i, Print(l), ['|'] + Print(r));
        PrintParts(b, i, l);
        OpenStops(b, i);
      case List(l, r) =>
        assert Body(c) == Print(l) + ([';'] + Print(r));
        ReadsSplit(b, i, Print(l), [';'] + Print(r));
        PrintParts(b, i, l);
        OpenStops(b, i);
      case Back(d) =>
        ReadsSplit(b, i, Print(d), ['&']);
        PrintParts(b, i, d);
        OpenStops(b, i);
    }
  }

  lemma PipeStops(b: Text, i: nat, c: Tree<Text>, n: nat)
    requires Means(b, ExecAt(b, i), c, n) && Ends(b, n, ['|'])
    ensures Means(b, PipeAt(b, i), c, n)
  {
    hide ExecAt;
    EndsUnseen(b, n, ['|']);
  }

  lemma LineStops(b: Text, i: nat, c: Tree<Text>, n: nat)
    requires Means(b, PipeAt(b, i), c, n) && Ends(b, n, ['&']) && Ends(b, n, [';'])
    ensures Means(b, LineAt(b, i), c, n)
  {
    hide PipeAt;
    EndsUnseen(b, n, ['&']);
    EndsUnseen(b, n, [';']);
  }

  /** A block whose inside parses, up to whatever redirections follow it. */
  lemma BlockOpens(b: Text, i: nat, c: Tree<Text>)
    requires Reads(b, i, Print(c)) && Stop(b, i + 1) && Stop(b, i + |Print(c)|) &&
        Means(b, LineAt(b, i + 1), c, i + 1 + |Body(c)|)
    ensures var l := LineAt(b, i + 1); var r := RedirsAt(b, i + |Print(c)|);
      ExecAt(b, i) == if r == NoFile then Fail(MissingFile) else Ok(Wrap(l.tree, r.list), r.next)
  {
    hide Reads, Body, LineAt, RedirsAt, Stop;
    PrintParts(b, i, c);
    SymbolToken(b, i, '(');
    SymbolToken(b, i + 1 + |Body(c)|, ')');
  }

  lemma BlockOk(b: Text, i: nat, c: Tree<Text>)
    requires Printable(c) && Reads(b, i, Print(c)) && After(b, i + |Print(c)|)
    ensures Means(b, ExecAt(b, i), c, i + |Print(c)|)
    decreases c, 1
  {
    hide Reads, Body, LineAt, ExecAt, RedirsAt, Printable;
    PrintParts(b, i, c);
    BodyStops(b, i + 1, c);
    LineOk(b, i + 1, c);
    BlockOpens(b, i, c);
    RedirsNone(b, i + |Print(c)|);
  }

  /** Two printed commands with a symbol between them. */
  lemma PairText(b: Text, i: nat, l: Tree<Text>, x: char, r: Tree<Text>)
    requires Closed(b, i, Print(l) + [x] + Print(r)) && (x == '|' || x == ';')
    ensures var n := i + |Print(l)|; var m := n + 1 + |Print(r)|;
      && Reads(b, i, Print(l)) && Holds(b, n, x) && After(b, n) && Reads(b, n + 1, Print(r)) && Stop(b, n + 1)
      && Holds(b, m, ')') && After(b, m) && m == i + |Print(l) + [x] + Print(r)|
  {
    hide Reads, Print, Body;
    var n := i + |Print(l)|;
    assert Print(l) + [x] + Print(r) == Print(l) + ([x] + Print(r));
    ReadsSplit(b, i, Print(l), [x] + Print(r));
    ReadsSplit(b, n, [x], Print(r));
    ReadsChar(b, n, x);
    PrintParts(b, n + 1, r);
    OpenStops(b, n + 1);
  }

  lemma BackText(b: Text, i: nat, d: Tree<Text>)
    requires Closed(b, i, Print(d) + ['&'])
    ensures var n := i + |Print(d)|;
      Reads(b, i, Print(d)) && Holds(b, n, '&') && After(b, n) && Holds(b, n + 1, ')') && Stop(b, n + 1)
  {
    hide Reads, Print;
    ReadsSplit(b, i, Print(d), ['&']);
    ReadsChar(b, i + |Print(d)|, '&');
  }

  lemma PipeCase(b: Text, i: nat, l: Tree<Text>, n: nat, r: Tree<Text>, m: nat)
    requires Means(b, ExecAt(b, i), l, n) && Holds(b, n, '|') && Stop(b, n + 1) &&
        Means(b, ExecAt(b, n + 1), r, m) && Holds(b, m, ')')
    ensures Means(b, LineAt(b, i), Pipe(l, r), m)
  {
    hide ExecAt, LineAt;
    PipeStops(b, n + 1, r, m);
    SymbolToken(b, n, '|');
    LineStops(b, i, Pipe(l, r), m);
  }

  lemma ListCase(b: Text, i: nat, l: Tree<Text>, n: nat, r: Tree<Text>, m: nat)
    requires Means(b, ExecAt(b, i), l, n) && Holds(b, n, ';') && Stop(b, n + 1) &&
        Means(b, ExecAt(b, n + 1), r, m) && Holds(b, m, ')')
    ensures Means(b, LineAt(b, i), List(l, r), m)
  {
    hide ExecAt, PipeAt;
    PipeStops(b, n + 1, r, m);
    LineStops(b, n + 1, r, m);
    PipeStops(b, i, l, n);
    EndsUnseen(b, n, ['&']);
    SymbolToken(b, n, ';');
  }

  lemma BackCase(b: Text, i: nat, d: Tree<Text>, n: nat)
    requires Means(b, ExecAt(b, i), d, n) && Holds(b, n, '&') && Holds(b, n + 1, ')')
    ensures Means(b, LineAt(b, i), Back(d), n + 1)
  {
    hide ExecAt, PipeAt;
    PipeStops(b, i, d, n);
    SymbolToken(b, n, '&');
    EndsUnseen(b, n + 1, ['&']);
    EndsUnseen(b, n + 1, [';']);
    BackOnce(b, n, PipeAt(b, i).tree);
  }

  lemma BackOnce(b: Text, n: nat, t: Tree<Span>)
    requires Sees(b, n, ['&']) && TokenAt(b, n).next == n + 1 && !Sees(b, n + 1, ['&']) && Skip(b, n + 1) == n + 1
    ensures BacksAt(b, n, t) == Ok(Back(t), n + 1)
  {
    hide Sees, TokenAt, Skip;
    assert BacksAt(b, n + 1, Back(t)) == Ok(Back(t), n + 1);
  }

  lemma ExecCase(b: Text, i: nat, args: seq<Text>)
    requires Printable(Exec(args)) && Closed(b, i, Join(args))
    ensures Means(b, LineAt(b, i), Exec(args), i + |Join(args)|)
  {
    hide Reads, Join, ArgsAt, PipeAt, LineAt, RedirsAt, Stop, IsWord, WordChar;
    JoinStops(b, i, args);
    RedirsNoneAtArg(b, i);
    NotOpen(b, i);
    ArgsOk(b, i, [], args);
    assert Cuts(b, []) + args == args;
    assert Means(b, ExecAt(b, i), Exec(args), i + |Join(args)|);
    PipeStops(b, i, Exec(args), i + |Join(args)|);
    LineStops(b, i, Exec(args), i + |Join(args)|);
  }

  lemma NotOpen(b: Text, i: nat)
    requires Stop(b, i) && i < |b| && (WordChar(b[i]) || b[i] == ')')
    ensures !Sees(b, i, ['('])
  {}

  /** A redirection arrow and its file name, up to the closing parenthesis. */
  lemma ArrowOk(b: Text, i: nat, mode: Mode, file: Text)
    requires Closed(b, i, Arrow(mode) + file) && IsWord(file)
    ensures Stop(b, i)
    ensures var n := i + |Arrow(mode) + file|; exists f ::
      Cut(b, f) == file && RedirsAt(b, i) == Redirs([Redirect(f, mode)], n)
  {
    hide Reads, RedirsAt, Skip, WordEnd, IsWord, Blank, WordChar, Symbol, Sees, Stop, TokenAt;
    var k := i + |Arrow(mode)|;
    ReadsSplit(b, i, Arrow(mode), file);
    SymbolEnds();
    WordToken(b, k, file);
    ArrowToken(b, i, mode);
    CloseSeen(b, k + |file|);
    RedirsNone(b, k + |file|);
    RedirsOne(b, i, mode, file);
    assert Cut(b, Span(k, k + |file|)) == file;
  }

  lemma SymbolEnds()
    ensures !WordChar(')')
  {}

  function KindOf(mode: Mode): (k: Kind) { if mode == In then Sym('<') else if mode == Out then Sym('>') else Double }

  lemma ArrowToken(b: Text, i: nat, mode: Mode)
    requires Reads(b, i, Arrow(mode)) && var k := i + |Arrow(mode)|; k < |b| && WordChar(b[k])
    ensures Stop(b, i) && Sees(b, i, ['<', '>'])
    ensures TokenAt(b, i).kind == KindOf(mode)
    ensures TokenAt(b, i).next == i + |Arrow(mode)|
  {
    assert b[i] == Arrow(mode)[0] by { assert b[i..i + |Arrow(mode)|][0] == Arrow(mode)[0]; }
    if mode == Append { assert b[i + 1] == '>' by { assert b[i..i + 2][1] == '>'; } }
    StopSkip(b, i + |Arrow(mode)|);
  }

  lemma {:induction false} RedirsOne(b: Text, i: nat, mode: Mode, file: Text)
    requires Sees(b, i, ['<', '>']) && TokenAt(b, i).kind == KindOf(mode)
    requires var k := TokenAt(b, i).next;
      TokenAt(b, k) == Token(Word, k, k + |file|, k + |file|) && RedirsAt(b, k + |file|) == Redirs([], k + |file|)
    ensures var k := TokenAt(b, i).next; RedirsAt(b, i) == Redirs([Redirect(Span(k, k + |file|), mode)], k + |file|)
  {
    hide TokenAt, Sees, Skip;
    var k := TokenAt(b, i).next;
    var x := Redirect(Span(k, k + |file|), mode);
    assert Prefixed([x], Redirs([], k + |file|)) == Redirs([x], k + |file|);
  }

  lemma RedirCase(b: Text, i: nat, d: Tree<Text>, file: Text, mode: Mode)
    requires Closed(b, i, Print(d) + Arrow(mode) + file) && IsWord(file) && Stop(b, i + 1)
    requires Means(b, LineAt(b, i + 1), d, i + 1 + |Body(d)|)
    ensures Means(b, LineAt(b, i), Redir(d, file, mode), i + |Print(d) + Arrow(mode) + file|)
  {
    hide Reads, Body, LineAt, ExecAt, PipeAt, RedirsAt, Stop, IsWord;
    var n, m := i + |Print(d)|, i + |Print(d) + Arrow(mode) + file|;
    assert Print(d) + Arrow(mode) + file == Print(d) + (Arrow(mode) + file);
    ReadsSplit(b, i, Print(d), Arrow(mode) + file);
    ArrowOk(b, n, mode, file);
    BlockOpens(b, i, d);
    var f :| Cut(b, f) == file && RedirsAt(b, n) == Redirs([Redirect(f, mode)], m);
    WrapOne(LineAt(b, i + 1).tree, f, mode);
    PipeStops(b, i, Redir(d, file, mode), m);
    LineStops(b, i, Redir(d, file, mode), m);
  }

  lemma WrapOne(t: Tree<Span>, f: Span, mode: Mode)
    ensures Wrap(t, [Redirect(f, mode)]) == Redir(t, f, mode)
  {}

  lemma LineOk(b: Text, i: nat, c: Tree<Text>)
    requires Printable(c) && Closed(b, i, Body(c))
    ensures Means(b, LineAt(b, i), c, i + |Body(c)|)
    decreases c, 0
  {
    hide Reads, Print, Join, LineAt, ExecAt, Stop, Holds, IsWord, Means, After;
    match c {
      case Exec(args) => ExecCase(b, i, args);
      case Redir(d, file, mode) =>
        RedirText(b, i, d, file, mode);
        LineOk(b, i + 1, d);
        RedirCase(b, i, d, file, mode);
      case Pipe(l, r) =>
        PairText(b, i, l, '|', r);
        BlockOk(b, i, l);
        BlockOk(b, i + |Print(l)| + 1, r);
        PipeCase(b, i, l, i + |Print(l)|, r, i + |Body(c)|);
      case List(l, r) =>
        PairText(b, i, l, ';', r);
        BlockOk(b, i, l);
        BlockOk(b, i + |Print(l)| + 1, r);
        ListCase(b, i, l, i + |Print(l)|, r, i + |Body(c)|);
      case Back(d) =>
        BackText(b, i, d);
        BlockOk(b, i, d);
        BackCase(b, i, d, i + |Print(d)|);
    }
  }

  lemma RedirText(b: Text, i: nat, d: Tree<Text>, file: Text, mode: Mode)
    requires Closed(b, i, Print(d) + Arrow(mode) + file) && Printable(d)
    ensures Closed(b, i + 1, Body(d)) && Stop(b, i + 1)
  {
    hide Reads, Body, Printable, Arrow;
    assert Print(d) + Arrow(mode) + file == Print(d) + (Arrow(mode) + file);
    ReadsSplit(b, i, Print(d), Arrow(mode) + file);
    PrintParts(b, i, d);
    BodyStops(b, i + 1, d);
  }

  /** Parsing the printed form of any command gives that command back. */
  lemma PrintParse(c: Tree<Text>)
    requires Printable(c)
    ensures CommandOf(Print(c)).Ok? && Said(Print(c), CommandOf(Print(c)).tree) == c
  {
    hide Body, ExecAt, PipeAt, LineAt, Printable;
    var b := Print(c);
    assert b[0..|b|] == b;
    BlockOk(b, 0, c);
    PipeStops(b, 0, c, |b|);
    LineStops(b, 0, c, |b|);
  }

  // ---------------------------------------------------------------- every parse, and nulterminate

  /** A span that is exactly one word of the line. */
  predicate WordSpan(b: Text, s: Span) {
    s.q < s.eq <= |b| && (forall k :: s.q <= k < s.eq ==> WordChar(b[k])) && (s.eq < |b| ==> !WordChar(b[s.eq]))
  }

  predicate Good(b: Text, t: Tree<Span>) {
    match t
    case Exec(args) => |args| < MAXARGS && forall k :: 0 <= k < |args| ==> WordSpan(b, args[k])
    case Redir(d, file, _) => Good(b, d) && WordSpan(b, file)
    case Pipe(l, r) => Good(b, l) && Good(b, r)
    case List(l, r) => Good(b, l) && Good(b, r)
    case Back(d) => Good(b, d)
  }

  predicate GoodList(b: Text, list: seq<Redirect>) { forall k :: 0 <= k < |list| ==> WordSpan(b, list[k].file) }

  lemma TokenGood(b: Text, i: nat)
    ensures TokenAt(b, i).kind == Word ==> WordSpan(b, Span(TokenAt(b, i).q, TokenAt(b, i).eq))
  {
    var s := Skip(b, i);
    if s < |b| { assert WordEnd(b, s + 1) <= |b|; }
  }

  lemma {:induction false} RedirsGood(b: Text, i: nat)
    ensures RedirsAt(b, i).Redirs? ==> GoodList(b, RedirsAt(b, i).list)
    decreases |b| - i
  {
    hide TokenAt, WordSpan, Skip;
    if Sees(b, i, ['<', '>']) {
      var f := TokenAt(b, TokenAt(b, i).next);
      TokenGood(b, TokenAt(b, i).next);
      SkipTwice(b, i);
      if f.kind == Word { RedirsGood(b, f.next); }
    }
  }

  lemma {:induction false} WrapGood(b: Text, t: Tree<Span>, list: seq<Redirect>)
    requires Good(b, t) && GoodList(b, list)
    ensures Good(b, Wrap(t, list))
    decreases |list|
  {
    hide WordSpan;
    if list != [] { WrapGood(b, Redir(t, list[0].file, list[0].mode), list[1..]); }
  }

  lemma {:induction false} ArgsGood(b: Text, i: nat, args: seq<Span>, list: seq<Redirect>)
    requires Good(b, Exec(args)) && GoodList(b, list)
    ensures var r := ArgsAt(b, i, args, list); r.Ok? ==> Good(b, r.tree)
    decreases |b| - i
  {
    hide TokenAt, WordSpan, Skip, Sees, RedirsAt, Wrap;
    WrapGood(b, Exec(args), list);
    var t := TokenAt(b, i);
    TokenGood(b, i);
    RedirsGood(b, t.next);
    var r := RedirsAt(b, t.next);
    if t.kind == Word && |args| + 1 < MAXARGS && r.Redirs? {
      ArgsGood(b, r.next, args + [Span(t.q, t.eq)], list + r.list);
    }
  }

  lemma ExecGood(b: Text, i: nat)
    ensures ExecAt(b, i).Ok? ==> Good(b, ExecAt(b, i).tree)
    decreases |b| - i, 1
  {
    hide Skip, Sees, RedirsAt, ArgsAt, BlockAt;
    if Sees(b, i, ['(']) {
      BlockGood(b, i);
    } else {
      RedirsGood(b, i);
      var r := RedirsAt(b, i);
      if r.Redirs? { ArgsGood(b, r.next, [], r.list); }
    }
  }

  lemma BlockGood(b: Text, i: nat)
    ensures BlockAt(b, i).Ok? ==> Good(b, BlockAt(b, i).tree)
    decreases |b| - i, 0
  {
    hide Skip, TokenAt, RedirsAt, LineAt, Wrap, Good, GoodList;
    if Sees(b, i, ['(']) {
      SkipTwice(b, i);
      LineGood(b, TokenAt(b, i).next);
      var l := LineAt(b, TokenAt(b, i).next);
      if l.Ok? {
        RedirsGood(b, TokenAt(b, l.next).next);
        var r := RedirsAt(b, TokenAt(b, l.next).next);
        if r.Redirs? { WrapGood(b, l.tree, r.list); }
      }
    }
  }

  lemma PipeGood(b: Text, i: nat)
    ensures PipeAt(b, i).Ok? ==> Good(b, PipeAt(b, i).tree)
    decreases |b| - i, 2
  {
    hide Skip, TokenAt, ExecAt;
    ExecGood(b, i);
    var l := ExecAt(b, i);
    if l.Ok? && Sees(b, l.next, ['|']) {
      SkipTwice(b, l.next);
      PipeGood(b, TokenAt(b, l.next).next);
    }
  }

  lemma {:induction false} BacksGood(b: Text, i: nat, t: Tree<Span>)
    requires Good(b, t)
    ensures Good(b, BacksAt(b, i, t).tree)
    decreases |b| - i
  {
    hide TokenAt, Skip;
    if Sees(b, i, ['&']) {
      SkipTwice(b, i);
      BacksGood(b, TokenAt(b, i).next, Back(t));
    }
  }

  lemma LineGood(b: Text, i: nat)
    ensures LineAt(b, i).Ok? ==> Good(b, LineAt(b, i).tree)
    decreases |b| - i, 3
  {
    hide Skip, TokenAt, PipeAt, BacksAt;
    PipeGood(b, i);
    var p := PipeAt(b, i);
    if p.Ok? {
      BacksGood(b, p.next, p.tree);
      var l := BacksAt(b, p.next, p.tree);
      if Sees(b, l.next, [';']) {
        SkipTwice(b, l.next);
        LineGood(b, TokenAt(b, l.next).next);
      }
    }
  }

  lemma {:induction false} GoodPrintable(b: Text, t: Tree<Span>)
    requires Good(b, t)
    ensures Printable(Said(b, t))
  {
    match t {
      case Exec(args) =>
        forall k | 0 <= k < |args| ensures IsWord(Cuts(b, args)[k]) { assert WordSpan(b, args[k]); }
      case Redir(d, file, _) => GoodPrintable(b, d);
      case Pipe(l, r) => GoodPrintable(b, l); GoodPrintable(b, r);
      case List(l, r) => GoodPrintable(b, l); GoodPrintable(b, r);
      case Back(d) => GoodPrintable(b, d);
    }
  }

  /** Printing what any line says and parsing that says the same. */
  lemma ParsePrint(b: Text)
    ensures CommandOf(b).Ok? ==>
      var c := Said(b, CommandOf(b).tree); CommandOf(Print(c)).Ok? && Said(Print(c), CommandOf(Print(c)).tree) == c
  {
    hide LineAt, Print, Said;
    LineGood(b, 0);
    if CommandOf(b).Ok? {
      GoodPrintable(b, CommandOf(b).tree);
      PrintParse(Said(b, CommandOf(b).tree));
    }
  }

  const NUL: char := 0 as char

  /** The positions nulterminate writes. */
  function Marks(t: Tree<Span>): (r: set<nat>) {
    match t
    case Exec(args) => set k | 0 <= k < |args| :: args[k].eq
    case Redir(d, file, _) => Marks(d) + {file.eq}
    case Pipe(l, r) => Marks(l) + Marks(r)
    case List(l, r) => Marks(l) + Marks(r)
    case Back(d) => Marks(d)
  }

  function Marked(a: Text, marks: set<nat>): (r: Text)
    ensures |r| == |a|
  { seq(|a|, k requires 0 <= k < |a| => if k in marks then NUL else a[k]) }

  /** nulterminate: a zero goes in after every word, wherever in the tree it is. */
  method NulTerminate(a: array<char>, t: Tree<Span>)
    requires forall k :: k in Marks(t) ==> k < a.Length
    modifies a
    ensures a[..] == Marked(old(a[..]), Marks(t))
  {
    match t
    case Exec(args) =>
      var i := 0;
      while i < |args|
        invariant 0 <= i <= |args|
        invariant a[..] == Marked(old(a[..]), set k | 0 <= k < i :: args[k].eq)
      {
        assert args[i].eq in Marks(t);
        a[args[i].eq] := NUL;
        i := i + 1;
      }
    case Redir(d, file, _) =>
      assert Marks(t) == Marks(d) + {file.eq};
      NulTerminate(a, d);
      a[file.eq] := NUL;
    case Pipe(l, r) =>
      assert Marks(t) == Marks(l) + Marks(r);
      NulTerminate(a, l);
      NulTerminate(a, r);
    case List(l, r) =>
      assert Marks(t) == Marks(l) + Marks(r);
      NulTerminate(a, l);
      NulTerminate(a, r);
    case Back(d) =>
      assert Marks(t) == Marks(d);
      NulTerminate(a, d);
  }

  /** The C string at q. */
  function CString(a: Text, q: nat): (s: Text)
    decreases |a| - q
  { if q < |a| && a[q] != NUL then [a[q]] + CString(a, q + 1) else [] }

  function Strings(a: Text, t: Tree<Span>): (c: Tree<Text>) {
    match t
    case Exec(args) => Exec(seq(|args|, k requires 0 <= k < |args| => CString(a, args[k].q)))
    case Redir(d, file, mode) => Redir(Strings(a, d), CString(a, file.q), mode)
    case Pipe(l, r) => Pipe(Strings(a, l), Strings(a, r))
    case List(l, r) => List(Strings(a, l), Strings(a, r))
    case Back(d) => Back(Strings(a, d))
  }

  lemma {:induction false} CStringIs(a: Text, q: nat, e: nat)
    requires q <= e < |a| && a[e] == NUL && forall k :: q <= k < e ==> a[k] != NUL
    ensures CString(a, q) == a[q..e]
    decreases e - q
  {
    if q < e {
      CStringIs(a, q + 1, e);
      assert a[q..e] == [a[q]] + a[q + 1..e];
    }
  }

  /** A mark never falls inside a word. */
  lemma {:induction false} MarksOutside(b: Text, t: Tree<Span>, k: nat)
    requires Good(b, t) && k in Marks(t)
    ensures k <= |b| && (k < |b| ==> !WordChar(b[k]))
  {
    match t {
      case Exec(args) =>
        var j :| 0 <= j < |args| && args[j].eq == k;
        assert WordSpan(b, args[j]);
      case Redir(d, file, _) => if k in Marks(d) { MarksOutside(b, d, k); }
      case Pipe(l, r) => if k in Marks(l) { MarksOutside(b, l, k); } else { MarksOutside(b, r, k); }
      case List(l, r) => if k in Marks(l) { MarksOutside(b, l, k); } else { MarksOutside(b, r, k); }
      case Back(d) => MarksOutside(b, d, k);
    }
  }

  lemma WordKept(b: Text, t: Tree<Span>, s: Span)
    requires NUL !in b && Good(b, t) && WordSpan(b, s) && s.eq in Marks(t)
    ensures CString(Marked(b + [NUL], Marks(t)), s.q) == Cut(b, s)
  {
    var a := Marked(b + [NUL], Marks(t));
    forall k | s.q <= k < s.eq ensures a[k] == b[k] && b[k] != NUL {
      if k in Marks(t) { MarksOutside(b, t, k); }
    }
    CStringIs(a, s.q, s.eq);
    assert a[s.q..s.eq] == b[s.q..s.eq];
  }

  lemma {:induction false} StringsAre(b: Text, whole: Tree<Span>, t: Tree<Span>)
    requires NUL !in b && Good(b, whole) && Good(b, t) && Marks(t) <= Marks(whole)
    ensures Strings(Marked(b + [NUL], Marks(whole)), t) == Said(b, t)
    decreases t
  {
    hide WordSpan, CString;
    match t {
      case Exec(args) =>
        forall k | 0 <= k < |args| ensures CString(Marked(b + [NUL], Marks(whole)), args[k].q) == Cut(b, args[k]) {
          assert args[k].eq in Marks(t);
          WordKept(b, whole, args[k]);
        }
      case Redir(d, file, _) =>
        StringsAre(b, whole, d);
        WordKept(b, whole, file);
      case Pipe(l, r) => StringsAre(b, whole, l); StringsAre(b, whole, r);
      case List(l, r) => StringsAre(b, whole, l); StringsAre(b, whole, r);
      case Back(d) => StringsAre(b, whole, d);
    }
  }

  /** For every line that parses, nulterminate leaves at each word's start the C string of exactly that word. */
  lemma NulTerminated(b: Text)
    requires NUL !in b && CommandOf(b).Ok?
    ensures var t := CommandOf(b).tree; Strings(Marked(b + [NUL], Marks(t)), t) == Said(b, t)
    ensures forall k :: k in Marks(CommandOf(b).tree) ==> k < |b + [NUL]|
  {
    hide LineAt;
    LineGood(b, 0);
    var t := CommandOf(b).tree;
    StringsAre(b, t, t);
    forall k | k in Marks(t) ensures k < |b + [NUL]| { MarksOutside(b, t, k); }
  }

  predicate NulFree(c: Tree<Text>) {
    match c
    case Exec(args) => forall k :: 0 <= k < |args| ==> NUL !in args[k]
    case Redir(d, file, _) => NulFree(d) && NUL !in file
    case Pipe(l, r) => NulFree(l) && NulFree(r)
    case List(l, r) => NulFree(l) && NulFree(r)
    case Back(d) => NulFree(d)
  }

  lemma {:induction false} JoinNulFree(words: seq<Text>)
    requires forall k :: 0 <= k < |words| ==> NUL !in words[k]
    ensures NUL !in Join(words)
  {
    if words != [] { JoinNulFree(words[1..]); }
  }

  lemma {:induction false} BodyNulFree(c: Tree<Text>)
    requires NulFree(c)
    ensures NUL !in Body(c)
  {
    match c {
      case Exec(args) => JoinNulFree(args);
      case Redir(d, file, mode) => BodyNulFree(d);
      case Pipe(l, r) => BodyNulFree(l); BodyNulFree(r);
      case List(l, r) => BodyNulFree(l); BodyNulFree(r);
      case Back(d) => BodyNulFree(d);
    }
  }

  /** So a printed command reaches runcmd with exactly its words. */
  lemma PrintedWordsArrive(c: Tree<Text>)
    requires Printable(c) && NulFree(c)
    ensures CommandOf(Print(c)).Ok?
    ensures var t := CommandOf(Print(c)).tree; Strings(Marked(Print(c) + [NUL], Marks(t)), t) == c
  {
    hide CommandOf, Body, Strings, Said;
    BodyNulFree(c);
    PrintParse(c);
    NulTerminated(Print(c));
  }
}
