/**
  * The shell's parser (user/sh.c): gettoken, peek and the recursive descent that builds a command tree of
  * positions in the line.  The functions say what each routine computes; the methods are the routines.
  */
module ShellParser {

  const MAXARGS: nat := 10

  const BLANKS: seq<char> := [' ', '\t', '\r', '\n', 0x0B as char]
  const SYMBOLS: seq<char> := ['<', '|', '>', '&', ';', '(', ')']

  predicate Blank(c: char) { c in BLANKS }

  predicate Symbol(c: char) { c in SYMBOLS }

  predicate WordChar(c: char) { !Blank(c) && !Symbol(c) }

  /** A word: line[q..eq]. */
  datatype Span = Span(q: nat, eq: nat)

  /** <, > and >>: read; write, create and truncate; write and create. */
  datatype Mode = In | Out | Append

  /** A command over words: spans of the line, or strings. */
  datatype Tree<W> =
    | Exec(args: seq<W>)
    | Redir(cmd: Tree<W>, file: W, mode: Mode)
    | Pipe(left: Tree<W>, right: Tree<W>)
    | List(left: Tree<W>, right: Tree<W>)
    | Back(cmd: Tree<W>)

  datatype Panic = Leftovers | MissingFile | NoBlock | MissingParen | Syntax | TooManyArgs

  datatype Parsed = Ok(tree: Tree<Span>, next: nat) | Fail(why: Panic)

  datatype Kind = End | Sym(c: char) | Double | Word

  datatype Token = Token(kind: Kind, q: nat, eq: nat, next: nat)

  // ---------------------------------------------------------------- the routines as functions

  function Skip(b: seq<char>, i: nat): (j: nat)
    ensures i <= j && (i <= |b| ==> j <= |b|) && (j < |b| ==> !Blank(b[j]))
    decreases |b| - i
  { if i < |b| && Blank(b[i]) then Skip(b, i + 1) else i }

  function WordEnd(b: seq<char>, i: nat): (j: nat)
    ensures i <= j && (i <= |b| ==> j <= |b|) && (j < |b| ==> !WordChar(b[j]))
    ensures forall k :: i <= k < j && k < |b| ==> WordChar(b[k])
    decreases |b| - i
  { if i < |b| && WordChar(b[i]) then WordEnd(b, i + 1) else i }

  /** gettoken. */
  function TokenAt(b: seq<char>, i: nat): (t: Token)
    ensures i <= t.q <= t.eq <= t.next && (i <= |b| ==> t.next <= |b|) && (t.kind != End ==> t.q < t.eq && t.q < |b|)
  {
    var s := Skip(b, i);
    if s >= |b| then Token(End, s, s, s)
    else if b[s] == '>' then
      if s + 1 < |b| && b[s + 1] == '>' then Token(Double, s, s + 2, Skip(b, s + 2))
      else Token(Sym('>'), s, s + 1, Skip(b, s + 1))
    else if Symbol(b[s]) then Token(Sym(b[s]), s, s + 1, Skip(b, s + 1))
    else Token(Word, s, WordEnd(b, s + 1), Skip(b, WordEnd(b, s + 1)))
  }

  /** peek. */
  predicate Sees(b: seq<char>, i: nat, toks: seq<char>) { Skip(b, i) < |b| && b[Skip(b, i)] in toks }

  datatype Redirect = Redirect(file: Span, mode: Mode)

  datatype Redirected = Redirs(list: seq<Redirect>, next: nat) | NoFile

  /** The redirections starting at i, in order. */
  function RedirsAt(b: seq<char>, i: nat): (r: Redirected)
    ensures r.Redirs? ==> i <= r.next && (i <= |b| ==> r.next <= |b|)
    decreases |b| - i
  {
    if !Sees(b, i, ['<', '>']) then Redirs([], Skip(b, i))
    else
      var t := TokenAt(b, i);
      var f := TokenAt(b, t.next);
      if f.kind != Word then NoFile else Prefixed([Redirect(Span(f.q, f.eq), ModeOf(t.kind))], RedirsAt(b, f.next))
  }

  function ModeOf(k: Kind): (m: Mode) { if k == Double then Append else if k == Sym('<') then In else Out }

  function Prefixed(list: seq<Redirect>, r: Redirected): (p: Redirected) {
    if r == NoFile then NoFile else Redirs(list + r.list, r.next)
  }

  /** Each redirection wraps what came before. */
  function Wrap(c: Tree<Span>, list: seq<Redirect>): (r: Tree<Span>)
    decreases |list|
  {
    if list == [] then c else Wrap(Redir(c, list[0].file, list[0].mode), list[1..])
  }

  /** parseexec's loop, with the arguments and redirections so far. */
  function ArgsAt(b: seq<char>, i: nat, args: seq<Span>, list: seq<Redirect>): (r: Parsed)
    ensures r.Ok? ==> i <= r.next && (i <= |b| ==> r.next <= |b|)
    decreases |b| - i
  {
    if Sees(b, i, ['|', ')', '&', ';']) then Ok(Wrap(Exec(args), list), Skip(b, i))
    else
      var t := TokenAt(b, i);
      if t.kind == End then Ok(Wrap(Exec(args), list), t.next)
      else if t.kind != Word then Fail(Syntax)
      else if |args| + 1 >= MAXARGS then Fail(TooManyArgs)
      else
        var r := RedirsAt(b, t.next);
        if r == NoFile then Fail(MissingFile) else ArgsAt(b, r.next, args + [Span(t.q, t.eq)], list + r.list)
  }

  function ExecAt(b: seq<char>, i: nat): (r: Parsed)
    ensures r.Ok? ==> i <= r.next && (i <= |b| ==> r.next <= |b|)
    decreases |b| - i, 1
  {
    if Sees(b, i, ['(']) then BlockAt(b, i)
    else
      var r := RedirsAt(b, i);
      if r == NoFile then Fail(MissingFile) else ArgsAt(b, r.next, [], r.list)
  }

  function BlockAt(b: seq<char>, i: nat): (r: Parsed)
    ensures r.Ok? ==> i <= r.next && (i <= |b| ==> r.next <= |b|)
    decreases |b| - i, 0
  {
    if !Sees(b, i, ['(']) then Fail(NoBlock)
    else
      var l := LineAt(b, TokenAt(b, i).next);
      if l.Fail? then l
      else if !Sees(b, l.next, [')']) then Fail(MissingParen)
      else
        var r := RedirsAt(b, TokenAt(b, l.next).next);
        if r == NoFile then Fail(MissingFile) else Ok(Wrap(l.tree, r.list), r.next)
  }

  function PipeAt(b: seq<char>, i: nat): (r: Parsed)
    ensures r.Ok? ==> i <= r.next && (i <= |b| ==> r.next <= |b|)
    decreases |b| - i, 2
  {
    var l := ExecAt(b, i);
    if l.Fail? || !Sees(b, l.next, ['|']) then Peeked(b, l)
    else
      var r := PipeAt(b, TokenAt(b, l.next).next);
      if r.Fail? then r else Ok(Pipe(l.tree, r.tree), r.next)
  }

  /** A peek that fails still moves past blanks. */
  function Peeked(b: seq<char>, r: Parsed): (p: Parsed) { if r.Fail? then r else Ok(r.tree, Skip(b, r.next)) }

  function BacksAt(b: seq<char>, i: nat, c: Tree<Span>): (r: Parsed)
    ensures r.Ok? && i <= r.next && (i <= |b| ==> r.next <= |b|)
    decreases |b| - i
  { if Sees(b, i, ['&']) then BacksAt(b, TokenAt(b, i).next, Back(c)) else Ok(c, Skip(b, i)) }

  function LineAt(b: seq<char>, i: nat): (r: Parsed)
    ensures r.Ok? ==> i <= r.next && (i <= |b| ==> r.next <= |b|)
    decreases |b| - i, 3
  {
    var p := PipeAt(b, i);
    if p.Fail? then p
    else
      var l := BacksAt(b, p.next, p.tree);
      if !Sees(b, l.next, [';']) then Peeked(b, l)
      else
        var r := LineAt(b, TokenAt(b, l.next).next);
        if r.Fail? then r else Ok(List(l.tree, r.tree), r.next)
  }

  /** parsecmd, up to nulterminate: the whole line must be used. */
  function CommandOf(b: seq<char>): (r: Parsed)
  {
    var l := LineAt(b, 0);
    if l.Fail? then l else if Skip(b, l.next) != |b| then Fail(Leftovers) else l
  }

  // ---------------------------------------------------------------- the routines

  /** A line being parsed: ps is the cursor that every routine shares and moves. */
  class Parser {
    const line: seq<char>
    var ps: nat

    constructor (b: seq<char>)
      ensures line == b && ps == 0
    {
      line, ps := b, 0;
    }

    method SkipBlanks()
      modifies this
      ensures ps == Skip(line, old(ps))
    {
      while ps < |line| && Blank(line[ps])
        invariant Skip(line, ps) == Skip(line, old(ps))
        decreases |line| - ps
      {
        ps := ps + 1;
      }
    }

    method GetToken() returns (t: Token)
      modifies this
      ensures t == TokenAt(line, old(ps)) && ps == t.next
    {
      hide Blank, Skip, Symbol;
      SkipTwice(line, ps);
      SkipBlanks();
      var q, kind := ps, End;
      if ps < |line| {
        if line[ps] == '>' {
          kind := Sym('>');
          ps := ps + 1;
          if ps < |line| && line[ps] == '>' {
            kind := Double;
            ps := ps + 1;
          }
        } else if Symbol(line[ps]) {
          kind := Sym(line[ps]);
          ps := ps + 1;
        } else {
          kind := Word;
          while ps < |line| && WordChar(line[ps])
            invariant q <= ps && WordEnd(line, ps) == WordEnd(line, q)
            decreases |line| - ps
          {
            ps := ps + 1;
          }
        }
      }
      var eq := ps;
      SkipBlanks();
      t := Token(kind, q, eq, ps);
    }

    method Peek(toks: seq<char>) returns (found: bool)
      modifies this
      ensures ps == Skip(line, old(ps)) && (found <==> Sees(line, old(ps), toks))
    {
      SkipBlanks();
      found := ps < |line| && line[ps] in toks;
    }

    method ParseRedirs() returns (r: Redirected)
      modifies this
      ensures r == RedirsAt(line, old(ps)) && (r.Redirs? ==> ps == r.next)
    {
      hide TokenAt, Skip, Sees;
      var list := [];
      var found := Peek(['<', '>']);
      ghost var at := old(ps);
      while found
        invariant ps == Skip(line, at) && at >= old(ps) && (found <==> Sees(line, at, ['<', '>']))
        invariant Prefixed(list, RedirsAt(line, at)) == RedirsAt(line, old(ps))
        decreases |line| - at
      {
        SkipTwice(line, at);
        var t := GetToken();
        var f := GetToken();
        if f.kind != Word { return NoFile; }
        list := list + [Redirect(Span(f.q, f.eq), ModeOf(t.kind))];
        at := ps;
        found := Peek(['<', '>']);
      }
      return Redirs(list, ps);
    }

    /** The blocks of parenthesised commands, pipes and lists call one another, always further along the line. */
    method ParseExec() returns (r: Parsed)
      requires ps <= |line|
      modifies this
      ensures r == ExecAt(line, old(ps)) && (r.Ok? ==> ps == r.next)
      decreases |line| - ps, 1
    {
      hide TokenAt, Skip, Sees, RedirsAt, BlockAt, Wrap;
      SkipTwice(line, ps);
      RedirsSkip(line, ps);
      BlockSkip(line, ps);
      var found := Peek(['(']);
      if found {
        r := ParseBlock();
        return;
      }
      var args: seq<Span> := [];
      var redirs := ParseRedirs();
      if redirs == NoFile { return Fail(MissingFile); }
      var list := redirs.list;
      ghost var at := ps;
      found := Peek(['|', ')', '&', ';']);
      while !found
        invariant ps == Skip(line, at) && old(ps) <= at <= |line| && (found <==> Sees(line, at, ['|', ')', '&', ';']))
        invariant |args| < MAXARGS && ArgsAt(line, at, args, list) == ExecAt(line, old(ps))
        decreases |line| - at
      {
        SkipTwice(line, at);
        var t := GetToken();
        if t.kind == End { break; }
        if t.kind != Word { return Fail(Syntax); }
        args := args + [Span(t.q, t.eq)];
        if |args| >= MAXARGS { return Fail(TooManyArgs); }
        redirs := ParseRedirs();
        if redirs == NoFile { return Fail(MissingFile); }
        list := list + redirs.list;
        at := ps;
        found := Peek(['|', ')', '&', ';']);
      }
      return Ok(Wrap(Exec(args), list), ps);
    }

    method ParseBlock() returns (r: Parsed)
      requires ps <= |line|
      modifies this
      ensures r == BlockAt(line, old(ps)) && (r.Ok? ==> ps == r.next)
      decreases |line| - ps, 0
    {
      hide TokenAt, Skip, RedirsAt, Wrap, LineAt;
      SkipTwice(line, ps);
      var found := Peek(['(']);
      if !found { return Fail(NoBlock); }
      var t := GetToken();
      r := ParseLine();
      if r.Fail? { return; }
      SkipTwice(line, ps);
      found := Peek([')']);
      if !found { return Fail(MissingParen); }
      t := GetToken();
      var redirs := ParseRedirs();
      if redirs == NoFile { return Fail(MissingFile); }
      return Ok(Wrap(r.tree, redirs.list), ps);
    }

    method ParsePipe() returns (r: Parsed)
      requires ps <= |line|
      modifies this
      ensures r == PipeAt(line, old(ps)) && (r.Ok? ==> ps == r.next)
      decreases |line| - ps, 2
    {
      hide TokenAt, Skip, ExecAt;
      r := ParseExec();
      if r.Fail? { return; }
      SkipTwice(line, ps);
      var found := Peek(['|']);
      if !found { return Ok(r.tree, ps); }
      var t := GetToken();
      var right := ParsePipe();
      if right.Fail? { return right; }
      return Ok(Pipe(r.tree, right.tree), ps);
    }

    method ParseLine() returns (r: Parsed)
      requires ps <= |line|
      modifies this
      ensures r == LineAt(line, old(ps)) && (r.Ok? ==> ps == r.next)
      decreases |line| - ps, 3
    {
      hide TokenAt, Skip, PipeAt, Sees;
      r := ParsePipe();
      if r.Fail? { return; }
      var cmd := r.tree;
      ghost var at, p := ps, r;
      var found := Peek(['&']);
      while found
        invariant ps == Skip(line, at) && p.next <= at <= |line| && (found <==> Sees(line, at, ['&']))
        invariant BacksAt(line, at, cmd) == BacksAt(line, p.next, p.tree)
        decreases |line| - at
      {
        SkipTwice(line, at);
        var t := GetToken();
        cmd := Back(cmd);
        at := ps;
        found := Peek(['&']);
      }
      SkipTwice(line, ps);
      found := Peek([';']);
      if !found { return Ok(cmd, ps); }
      var t := GetToken();
      var rest := ParseLine();
      if rest.Fail? { return rest; }
      return Ok(List(cmd, rest.tree), ps);
    }

    /** parsecmd on a fresh line, up to nulterminate. */
    method ParseCmd() returns (r: Parsed)
      requires ps == 0
      modifies this
      ensures r == CommandOf(line)
    {
      r := ParseLine();
      if r.Fail? { return; }
      var found := Peek([]);
      if ps != |line| { return Fail(Leftovers); }
    }
  }

  lemma RedirsSkip(b: seq<char>, i: nat)
    ensures RedirsAt(b, Skip(b, i)) == RedirsAt(b, i)
  {
    hide TokenAt;
    SkipTwice(b, i);
  }

  lemma BlockSkip(b: seq<char>, i: nat)
    ensures BlockAt(b, Skip(b, i)) == BlockAt(b, i)
  {
    hide TokenAt, Skip, Sees;
    SkipTwice(b, i);
  }

  /** Skipping blanks again changes nothing, so a routine may start before or after a peek. */
  lemma SkipTwice(b: seq<char>, i: nat)
    ensures Skip(b, Skip(b, i)) == Skip(b, i) && TokenAt(b, Skip(b, i)) == TokenAt(b, i)
    ensures forall toks :: Sees(b, Skip(b, i), toks) == Sees(b, i, toks)
    ensures forall toks :: Sees(b, i, toks) ==> Skip(b, i) < TokenAt(b, i).next
  {
    hide WordEnd, Symbol, Blank;
    assert Skip(b, Skip(b, i)) == Skip(b, i);
    hide Skip;
  }
}
