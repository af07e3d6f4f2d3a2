/**
 Deployment identity is blind to capacity: which engine arguments enter the load
 configuration whose digest names a deployment.
 */
module Identity {
  import opened Options

  /** Text up to the first '=', and what follows it if there is one. */
  function Partition(item: string): (r: (string, Option<string>))
    ensures '=' !in r.0
    ensures item == if r.1.Some? then r.0 + "=" + r.1.value else r.0
  {
    if item == "" then ("", None)
    else if item[0] == '=' then ("", Some(item[1..]))
    else
      var (name, rest) := Partition(item[1..]);
      ([item[0]] + name, rest)
  }

  /** Testing for a prefix `name=` is looking at the partition. */
  lemma {:induction false} PartitionFinds(item: string, name: string)
    requires '=' !in name
    ensures item == name <==> Partition(item) == (name, None)
    ensures name + "=" <= item <==> Partition(item).0 == name && Partition(item).1.Some?
    ensures name + "=" <= item ==> Partition(item).1 == Some(item[|name| + 1..])
  {
    var (head, rest) := Partition(item);
    assert head == item[..|head|];
    if name + "=" <= item {
      assert name == item[..|name|] && item[|name|] == '=';
      assert rest.Some? ==> item[|head|] == '=';
      if |head| == |name| {
        assert head == name;
      }
    }
  }

  // ----- scanning an argument list

  datatype Action = Keep | DropOne | DropTwo

  /** Options that take a value, with their validators, and options that take none. */
  datatype Flags = Flags(values: map<string, string -> bool>, booleans: set<string>)

  function Judge(f: Flags, item: string, next: Option<string>): Action {
    var (name, inline) := Partition(item);
    if name in f.booleans && inline.None? then DropOne
    else if name !in f.values then Keep
    else if inline.Some? then (if f.values[name](inline.value) then DropOne else Keep)
    else if next.Some? && f.values[name](next.value) then DropTwo
    else Keep
  }

  function Following(args: seq<string>): Option<string> { if |args| > 1 then Some(args[1]) else None }

  function Strip(f: Flags, args: seq<string>): seq<string>
    decreases |args|
  {
    if args == [] then []
    else
      match Judge(f, args[0], Following(args))
      case Keep => [args[0]] + Strip(f, args[1..])
      case DropOne => Strip(f, args[1..])
      case DropTwo => Strip(f, args[2..])
  }

  function Next(args: seq<string>, i: nat): Option<string> { if i + 1 < |args| then Some(args[i + 1]) else None }

  lemma Advance(f: Flags, args: seq<string>, i: nat, output: seq<string>)
    requires i < |args|
    ensures match Judge(f, args[i], Next(args, i))
      case Keep => output + Strip(f, args[i..]) == output + [args[i]] + Strip(f, args[i + 1..])
      case DropOne => Strip(f, args[i..]) == Strip(f, args[i + 1..])
      case DropTwo => i + 2 <= |args| && Strip(f, args[i..]) == Strip(f, args[i + 2..])
  {
    var rest := args[i..];
    assert rest[1..] == args[i + 1..];
    assert Following(rest) == Next(args, i);
    if i + 1 < |args| {
      assert rest[2..] == args[i + 2..];
    }
  }

  /** One turn of the loop: what becomes of the item at `index`. */
  method Inspect(f: Flags, args: seq<string>, index: nat) returns (action: Action)
    requires index < |args|
    ensures action == Judge(f, args[index], Next(args, index))
  {
    var (name, inline) := Partition(args[index]);
    if name in f.booleans && inline.None? {
      return DropOne;
    }
    if name !in f.values {
      return Keep;
    }
    if inline.Some? {
      return if f.values[name](inline.value) then DropOne else Keep;
    }
    if index + 1 < |args| && f.values[name](args[index + 1]) {
      return DropTwo;
    }
    return Keep;
  }

  method StripValidFlags(args: seq<string>, f: Flags) returns (output: seq<string>)
    ensures output == Strip(f, args)
  {
    output := [];
    var index := 0;
    while index < |args|
      invariant 0 <= index <= |args|
      invariant output + Strip(f, args[index..]) == Strip(f, args)
    {
      var action := Inspect(f, args, index);
      Advance(f, args, index, output);
      match action {
        case Keep =>
          output := output + [args[index]];
          index := index + 1;
        case DropOne => index := index + 1;
        case DropTwo => index := index + 2;
      }
    }
  }

  // ----- capacity options

  datatype Backend = Vllm | LlamaCpp | Image

  function CapacityOptions(backend: Backend): (names: seq<string>)
    ensures forall n :: n in names ==> '=' !in n
  {
    match backend
    case Vllm => ["--max-num-seqs"]
    case LlamaCpp => ["--parallel", "-np"]
    case Image => []
  }

  type Parser = string -> Option<int>

  predicate AtLeast(parse: Parser, minimum: int, value: string) { parse(value).Some? && parse(value).value >= minimum }

  function CapacityFlags(backend: Backend, parse: Parser): Flags {
    Flags(map n | n in CapacityOptions(backend) :: (value => AtLeast(parse, 1, value)), {})
  }

  method MatchedOption(item: string, names: seq<string>) returns (matched: Option<string>)
    ensures matched.None? ==> forall n :: n in names ==> item != n && !(n + "=" <= item)
    ensures matched.Some? ==> matched.value in names && (item == matched.value || matched.value + "=" <= item)
  {
    for i := 0 to |names|
      invariant forall j :: 0 <= j < i ==> item != names[j] && !(names[j] + "=" <= item)
    {
      if item == names[i] || names[i] + "=" <= item {
        return Some(names[i]);
      }
    }
    return None;
  }

  /** One turn of the capacity filter's loop. */
  method InspectCapacity(backend: Backend, parse: Parser, args: seq<string>, index: nat) returns (action: Action)
    requires index < |args|
    ensures action == Judge(CapacityFlags(backend, parse), args[index], Next(args, index))
  {
    var item := args[index];
    var matched := MatchedOption(item, CapacityOptions(backend));
    JudgeMatched(backend, parse, item, Next(args, index), matched);
    if matched.None? {
      return Keep;
    }
    if matched.value + "=" <= item {
      return if AtLeast(parse, 1, item[|matched.value| + 1..]) then DropOne else Keep;
    }
    if index + 1 < |args| && AtLeast(parse, 1, args[index + 1]) {
      return DropTwo;
    }
    return Keep;
  }

  /** The capacity filter keeps exactly what the general one would. */
  method SemanticExtraArgs(args: seq<string>, backend: Backend, parse: Parser) returns (output: seq<string>)
    ensures output == Strip(CapacityFlags(backend, parse), args)
  {
    ghost var f := CapacityFlags(backend, parse);
    output := [];
    var index := 0;
    while index < |args|
      invariant 0 <= index <= |args|
      invariant output + Strip(f, args[index..]) == Strip(f, args)
    {
      var action := InspectCapacity(backend, parse, args, index);
      Advance(f, args, index, output);
      match action {
        case Keep =>
          output := output + [args[index]];
          index := index + 1;
        case DropOne => index := index + 1;
        case DropTwo => index := index + 2;
      }
    }
  }

  lemma JudgeMatched(backend: Backend, parse: Parser, item: string, next: Option<string>, matched: Option<string>)
    requires matched.None? ==> forall n :: n in CapacityOptions(backend) ==> item != n && !(n + "=" <= item)
    requires matched.Some? ==>
      matched.value in CapacityOptions(backend) && (item == matched.value || matched.value + "=" <= item)
    ensures var action := Judge(CapacityFlags(backend, parse), item, next);
      if matched.None? then action == Keep
      else if matched.value + "=" <= item then
        action == if AtLeast(parse, 1, item[|matched.value| + 1..]) then DropOne else Keep
      else action == if next.Some? && AtLeast(parse, 1, next.value) then DropTwo else Keep
  {
    var (name, inline) := Partition(item);
    if matched.Some? {
      PartitionFinds(item, matched.value);
    } else if name in CapacityOptions(backend) {
      PartitionFinds(item, name);
    }
  }

  // ----- what is dropped, and what is not

  datatype Piece = Kept(item: string) | Alone(item: string) | Pair(name: string, value: string)

  function Pieces(f: Flags, args: seq<string>): seq<Piece>
    decreases |args|
  {
    if args == [] then []
    else
      match Judge(f, args[0], Following(args))
      case Keep => [Kept(args[0])] + Pieces(f, args[1..])
      case DropOne => [Alone(args[0])] + Pieces(f, args[1..])
      case DropTwo => [Pair(args[0], args[1])] + Pieces(f, args[2..])
  }

  function Tokens(p: Piece): seq<string> {
    match p case Kept(i) => [i] case Alone(i) => [i] case Pair(n, v) => [n, v]
  }

  function Joined(ps: seq<Piece>): seq<string> { if ps == [] then [] else Tokens(ps[0]) + Joined(ps[1..]) }

  function KeptOf(ps: seq<Piece>): seq<string> {
    if ps == [] then [] else (if ps[0].Kept? then [ps[0].item] else []) + KeptOf(ps[1..])
  }

  /** A complete option with a valid value, or a known switch. */
  predicate WellFormed(f: Flags, p: Piece) {
    match p
    case Kept(i) => false
    case Alone(i) =>
      var (name, inline) := Partition(i);
      (inline.None? && name in f.booleans) || (inline.Some? && name in f.values && f.values[name](inline.value))
    case Pair(n, v) => n in f.values && f.values[n](v)
  }

  lemma OnePieceMore(first: Piece, ps: seq<Piece>)
    ensures Joined([first] + ps) == Tokens(first) + Joined(ps)
    ensures KeptOf([first] + ps) == (if first.Kept? then [first.item] else []) + KeptOf(ps)
  {
    assert ([first] + ps)[1..] == ps;
  }

  function FirstPiece(f: Flags, args: seq<string>): Piece
    requires args != []
  {
    match Judge(f, args[0], Following(args))
    case Keep => Kept(args[0])
    case DropOne => Alone(args[0])
    case DropTwo => Pair(args[0], args[1])
  }

  function AfterFirst(f: Flags, args: seq<string>): (rest: seq<string>)
    requires args != []
    ensures |rest| < |args|
  {
    if Judge(f, args[0], Following(args)).DropTwo? then args[2..] else args[1..]
  }

  lemma FirstPieceIs(f: Flags, args: seq<string>)
    requires args != []
    ensures var first, rest := FirstPiece(f, args), AfterFirst(f, args);
      && args == Tokens(first) + rest && Pieces(f, args) == [first] + Pieces(f, rest)
      && Strip(f, args) == (if first.Kept? then [first.item] else []) + Strip(f, rest)
  {
  }

  lemma FirstPieceWellFormed(f: Flags, args: seq<string>)
    requires args != []
    ensures FirstPiece(f, args).Kept? || WellFormed(f, FirstPiece(f, args))
  {
    var (name, inline) := Partition(args[0]);
    if inline.None? { assert name == args[0]; }
  }

  /** The arguments are cut into pieces without loss; the result is the kept pieces in
      order, and every other piece is one well-formed option. */
  lemma {:induction false} OnlyWellFormedDropped(f: Flags, args: seq<string>)
    ensures Joined(Pieces(f, args)) == args
    ensures KeptOf(Pieces(f, args)) == Strip(f, args)
    ensures forall p :: p in Pieces(f, args) ==> p.Kept? || WellFormed(f, p)
    decreases |args|
  {
    if args != [] {
      var first, rest := FirstPiece(f, args), AfterFirst(f, args);
      OnlyWellFormedDropped(f, rest);
      FirstPieceIs(f, args);
      FirstPieceWellFormed(f, args);
      OnePieceMore(first, Pieces(f, rest));
    }
  }

  // ----- inserting an option

  /** Position k is reached by the scan. */
  predicate Boundary(f: Flags, args: seq<string>, k: nat)
    decreases k
  {
    k == 0 || (args != [] &&
      (if Judge(f, args[0], Following(args)).DropTwo? then k >= 2 && |args| >= 2 && Boundary(f, args[2..], k - 2)
       else Boundary(f, args[1..], k - 1)))
  }

  /** No option takes this token as its value. */
  ghost predicate NoValue(f: Flags, token: string) { forall n :: n in f.values ==> !f.values[n](token) }

  lemma JudgeBefore(f: Flags, item: string, next: Option<string>, token: string)
    requires NoValue(f, token) && Judge(f, item, next) != DropTwo
    ensures Judge(f, item, Some(token)) == Judge(f, item, next)
  {
  }

  lemma StripOption(f: Flags, option: Piece, rest: seq<string>)
    requires WellFormed(f, option) && (option.Pair? ==> '=' !in option.name && option.name !in f.booleans)
    ensures Strip(f, Tokens(option) + rest) == Strip(f, rest)
  {
    var args := Tokens(option) + rest;
    if option.Pair? {
      PartitionFinds(option.name, option.name);
      assert args[2..] == rest;
    } else {
      assert args[1..] == rest;
    }
  }

  function Spliced(args: seq<string>, k: nat, t: seq<string>): seq<string>
    requires k <= |args|
  {
    args[..k] + t + args[k..]
  }

  lemma SplicedTail(args: seq<string>, k: nat, t: seq<string>, step: nat)
    requires step <= k <= |args|
    ensures Spliced(args, k, t)[step..] == Spliced(args[step..], k - step, t)
  {
  }

  lemma SameStep(f: Flags, a: seq<string>, b: seq<string>, step: nat)
    requires a != [] && b != [] && a[0] == b[0]
    requires Judge(f, a[0], Following(a)) == Judge(f, b[0], Following(b))
    requires step == if Judge(f, a[0], Following(a)).DropTwo? then 2 else 1
    requires step <= |a| && step <= |b| && Strip(f, a[step..]) == Strip(f, b[step..])
    ensures Strip(f, a) == Strip(f, b)
  {
  }

  lemma SplicedJudge(f: Flags, args: seq<string>, k: nat, t: seq<string>)
    requires 0 < k <= |args| && t != [] && NoValue(f, t[0])
    requires k == 1 ==> !Judge(f, args[0], Following(args)).DropTwo?
    ensures var longer := Spliced(args, k, t);
      longer[0] == args[0] && Judge(f, longer[0], Following(longer)) == Judge(f, args[0], Following(args))
  {
    var longer := Spliced(args, k, t);
    assert longer[0] == args[0];
    if k > 1 {
      assert longer[1] == args[1];
    } else {
      assert longer[1] == t[0];
      JudgeBefore(f, args[0], Following(args), t[0]);
    }
  }

  /** Inserting a well-formed option where the scan stops to look changes nothing. */
  lemma {:induction false} InsertionIsInvisible(f: Flags, args: seq<string>, k: nat, option: Piece)
    requires k <= |args| && Boundary(f, args, k)
    requires WellFormed(f, option) && (option.Pair? ==> '=' !in option.name && option.name !in f.booleans)
    requires NoValue(f, Tokens(option)[0])
    ensures Strip(f, Spliced(args, k, Tokens(option))) == Strip(f, args)
    decreases k
  {
    var t := Tokens(option);
    if k == 0 {
      assert Spliced(args, 0, t) == t + args;
      StripOption(f, option, args);
    } else {
      var step := if Judge(f, args[0], Following(args)).DropTwo? then 2 else 1;
      InsertionIsInvisible(f, args[step..], k - step, option);
      SplicedTail(args, k, t, step);
      SplicedJudge(f, args, k, t);
      SameStep(f, Spliced(args, k, t), args, step);
    }
  }

  // ----- filtering twice

  lemma {:induction false} NeverLonger(f: Flags, args: seq<string>)
    ensures |Strip(f, args)| <= |args|
    decreases |args|
  {
    if args != [] {
      NeverLonger(f, args[1..]);
      if |args| > 1 {
        NeverLonger(f, args[2..]);
      }
    }
  }

  /** Two neighbours would read as an option with its value. */
  predicate Reads(f: Flags, a: string, b: string) { Judge(f, a, Some(b)) == DropTwo }

  ghost predicate KeptAlone(f: Flags, args: seq<string>) {
    forall i :: 0 <= i < |args| ==> Judge(f, args[i], None) == Keep
  }

  lemma {:induction false} StripKeepsAlone(f: Flags, args: seq<string>)
    ensures KeptAlone(f, Strip(f, args))
    decreases |args|
  {
    if args != [] {
      var action := Judge(f, args[0], Following(args));
      StripKeepsAlone(f, if action.DropTwo? then args[2..] else args[1..]);
    }
  }

  ghost predicate ReadsAt(f: Flags, args: seq<string>, n: nat) {
    n + 1 < |args| && Reads(f, args[n], args[n + 1])
  }

  lemma {:induction false} UnchangedExactly(f: Flags, args: seq<string>)
    requires KeptAlone(f, args)
    ensures Strip(f, args) == args <==> forall n: nat :: !ReadsAt(f, args, n)
    decreases |args|
  {
    if args != [] {
      var rest := args[1..];
      UnchangedExactly(f, rest);
      if Judge(f, args[0], Following(args)).DropTwo? {
        NeverLonger(f, args[2..]);
        assert ReadsAt(f, args, 0);
      } else {
        assert args == [args[0]] + rest;
        assert !ReadsAt(f, args, 0);
        forall n: nat ensures ReadsAt(f, rest, n) <==> ReadsAt(f, args, n + 1) {
        }
        forall n: nat | ReadsAt(f, args, n) ensures ReadsAt(f, rest, n - 1) {
        }
      }
    }
  }

  /** Two kept pieces with nothing kept between them. */
  ghost predicate Neighbours(ps: seq<Piece>, i: int, j: int) {
    && 0 <= i < j < |ps| && ps[i].Kept? && ps[j].Kept?
    && forall k :: i < k < j ==> !ps[k].Kept?
  }

  /** A kept option name is cut off from a kept value only by options that are dropped. */
  ghost predicate ClosesUp(f: Flags, ps: seq<Piece>) {
    exists i, j :: Neighbours(ps, i, j) && i + 1 < j && Reads(f, ps[i].item, ps[j].item)
  }

  lemma {:induction false} FirstKept(ps: seq<Piece>) returns (j: nat)
    requires KeptOf(ps) != []
    ensures j < |ps| && ps[j] == Kept(KeptOf(ps)[0]) && forall k :: 0 <= k < j ==> !ps[k].Kept?
  {
    if ps[0].Kept? {
      j := 0;
    } else {
      j := FirstKept(ps[1..]);
      j := j + 1;
    }
  }

  lemma {:induction false} NoneKeptBefore(ps: seq<Piece>, j: nat)
    requires j < |ps| && ps[j].Kept? && forall k :: 0 <= k < j ==> !ps[k].Kept?
    ensures KeptOf(ps) != [] && KeptOf(ps)[0] == ps[j].item
  {
    if j > 0 { NoneKeptBefore(ps[1..], j - 1); }
  }

  lemma {:induction false} NeighboursMeet(ps: seq<Piece>, i: nat, j: nat) returns (n: nat)
    requires Neighbours(ps, i, j)
    ensures n + 1 < |KeptOf(ps)| && KeptOf(ps)[n] == ps[i].item && KeptOf(ps)[n + 1] == ps[j].item
  {
    var rest := ps[1..];
    if i == 0 {
      NoneKeptBefore(rest, j - 1);
      n := 0;
    } else {
      assert forall k :: 0 <= k < |rest| ==> rest[k] == ps[k + 1];
      n := NeighboursMeet(rest, i - 1, j - 1);
      if ps[0].Kept? { n := n + 1; }
    }
  }

  lemma {:induction false} MeetingNeighbours(ps: seq<Piece>, n: nat) returns (i: nat, j: nat)
    requires n + 1 < |KeptOf(ps)|
    ensures Neighbours(ps, i, j) && ps[i].item == KeptOf(ps)[n] && ps[j].item == KeptOf(ps)[n + 1]
  {
    var rest := ps[1..];
    assert forall k :: 0 <= k < |rest| ==> rest[k] == ps[k + 1];
    if ps[0].Kept? && n == 0 {
      i := 0;
      j := FirstKept(rest);
      j := j + 1;
    } else {
      i, j := MeetingNeighbours(rest, if ps[0].Kept? then n - 1 else n);
      i, j := i + 1, j + 1;
    }
  }

  /** Pieces that were kept side by side do not read as an option with its value. */
  lemma {:induction false} SideBySide(f: Flags, args: seq<string>, i: nat)
    requires i + 1 < |Pieces(f, args)| && Pieces(f, args)[i].Kept? && Pieces(f, args)[i + 1].Kept?
    ensures !Reads(f, Pieces(f, args)[i].item, Pieces(f, args)[i + 1].item)
    decreases |args|
  {
    var action := Judge(f, args[0], Following(args));
    var rest := if action.DropTwo? then args[2..] else args[1..];
    assert Pieces(f, args)[1..] == Pieces(f, rest);
    if i > 0 {
      SideBySide(f, rest, i - 1);
    } else {
      assert Pieces(f, rest)[0] == Pieces(f, args)[1];
      assert rest[0] == args[1];
    }
  }

  /** The filter is idempotent on exactly those arguments in which dropping options does
      not bring a kept option name next to a kept value for it. */
  lemma IdempotentExactly(f: Flags, args: seq<string>)
    ensures Strip(f, Strip(f, args)) == Strip(f, args) <==> !ClosesUp(f, Pieces(f, args))
  {
    var once, ps := Strip(f, args), Pieces(f, args);
    OnlyWellFormedDropped(f, args);
    StripKeepsAlone(f, args);
    UnchangedExactly(f, once);
    if ClosesUp(f, ps) {
      var n := ClosedUpReads(f, ps);
    }
    if n: nat :| ReadsAt(f, once, n) { ReadsClosedUp(f, args, n); }
  }

  lemma ClosedUpReads(f: Flags, ps: seq<Piece>) returns (n: nat)
    requires ClosesUp(f, ps)
    ensures ReadsAt(f, KeptOf(ps), n)
  {
    var i, j :| Neighbours(ps, i, j) && i + 1 < j && Reads(f, ps[i].item, ps[j].item);
    n := NeighboursMeet(ps, i, j);
  }

  lemma ReadsClosedUp(f: Flags, args: seq<string>, n: nat)
    requires ReadsAt(f, KeptOf(Pieces(f, args)), n)
    ensures ClosesUp(f, Pieces(f, args))
  {
    var i, j := MeetingNeighbours(Pieces(f, args), n);
    if j == i + 1 { SideBySide(f, args, i); }
  }

  lemma NameJudged(f: Flags, name: string, next: Option<string>)
    requires '=' !in name && name !in f.booleans
    ensures Judge(f, name, next) ==
      if name in f.values && next.Some? && f.values[name](next.value) then DropTwo else Keep
  {
    PartitionFinds(name, name);
  }

  /** It is not idempotent in general: what encloses a dropped option can close up. */
  lemma ClosingUp(f: Flags, name: string, inner: string, outer: string)
    requires '=' !in name && '=' !in outer && name in f.values && f.booleans == {}
    requires !f.values[name](name) && f.values[name](inner) && f.values[name](outer) && outer !in f.values
    ensures Strip(f, [name, name, inner, outer]) == [name, outer]
    ensures Strip(f, [name, outer]) == []
  {
    NameJudged(f, name, Some(name));
    NameJudged(f, name, Some(inner));
    NameJudged(f, name, Some(outer));
    NameJudged(f, outer, None);
    var args := [name, name, inner, outer];
    Advance(f, args, 3, []);
    Advance(f, args, 1, []);
    Advance(f, args, 0, []);
    Advance(f, [name, outer], 0, []);
    assert args[0..] == args && args[3..] == [outer] && args[4..] == [];
    assert [name, outer][0..] == [name, outer] && [name, outer][2..] == [];
  }

  lemma NotIdempotent(parse: Parser)
    requires parse("--parallel").None? && parse("4") == Some(4) && parse("8") == Some(8)
    ensures var f := CapacityFlags(LlamaCpp, parse);
      Strip(f, ["--parallel", "--parallel", "4", "8"]) == ["--parallel", "8"] && Strip(f, ["--parallel", "8"]) == []
  {
    ClosingUp(CapacityFlags(LlamaCpp, parse), "--parallel", "4", "8");
  }

  // ----- the load configuration

  /** The profile fields the configuration is built from. */
  datatype Profile = Profile(backend: Backend, extraArgs: seq<string>, maxModelLen: Option<int>, trust: bool,
    imageDefaults: string)

  /** How single values are read; each reading sees only the filtered arguments. */
  datatype Readings = Readings(
    parse: Parser, context: seq<string> -> Option<int>, pooling: seq<string> -> Option<string>,
    placement: Backend -> Flags)

  datatype LoadConfig =
    | VllmConfig(context: Option<int>, trust: bool, args: seq<string>)
    | LlamaConfig(context: Option<int>, pooling: Option<string>, args: seq<string>)
    | ImageConfig(defaults: string, args: seq<string>)

  function Either(a: Option<int>, b: Option<int>): Option<int> { if a.Some? then a else b }

  function SemanticLoadConfig(p: Profile, r: Readings): LoadConfig {
    var args := Strip(CapacityFlags(p.backend, r.parse), p.extraArgs);
    var kept := Strip(r.placement(p.backend), args);
    match p.backend
    case Vllm => VllmConfig(Either(r.context(args), p.maxModelLen), p.trust, kept)
    case LlamaCpp => LlamaConfig(Either(r.context(args), p.maxModelLen), r.pooling(args), kept)
    case Image => ImageConfig(p.imageDefaults, kept)
  }

  // ----- what the configuration keeps

  /** No filter knows the item. */
  predicate Unknown(f: Flags, item: string) { Partition(item).0 !in f.values && Partition(item).0 !in f.booleans }

  lemma {:induction false} UnknownKept(f: Flags, args: seq<string>)
    requires forall i :: 0 <= i < |args| ==> Unknown(f, args[i])
    ensures Strip(f, args) == args
    decreases |args|
  {
    if args != [] {
      UnknownKept(f, args[1..]);
      assert args == [args[0]] + args[1..];
    }
  }

  /** Arguments that neither filter knows enter the configuration as they are, in order;
      what is read from the arguments takes precedence over the profile's default. */
  lemma ConfigKeeps(p: Profile, r: Readings)
    requires forall i :: 0 <= i < |p.extraArgs| ==>
      Unknown(CapacityFlags(p.backend, r.parse), p.extraArgs[i]) && Unknown(r.placement(p.backend), p.extraArgs[i])
    ensures var config := SemanticLoadConfig(p, r);
      && config.args == p.extraArgs
      && (config.VllmConfig? <==> p.backend == Vllm) && (config.LlamaConfig? <==> p.backend == LlamaCpp)
      && (config.VllmConfig? ==> config.trust == p.trust)
      && (config.LlamaConfig? ==> config.pooling == r.pooling(p.extraArgs))
      && (config.ImageConfig? ==> config.defaults == p.imageDefaults)
      && (!config.ImageConfig? && r.context(p.extraArgs).Some? ==> config.context == r.context(p.extraArgs))
      && (!config.ImageConfig? && r.context(p.extraArgs).None? ==> config.context == p.maxModelLen)
  {
    UnknownKept(CapacityFlags(p.backend, r.parse), p.extraArgs);
    UnknownKept(r.placement(p.backend), p.extraArgs);
  }

  /** So two profiles of one backend that differ in such arguments are two deployments. */
  lemma ConfigSeparates(p: Profile, q: Profile, r: Readings)
    requires p.backend == q.backend && SemanticLoadConfig(p, r) == SemanticLoadConfig(q, r)
    requires forall i :: 0 <= i < |p.extraArgs| ==>
      Unknown(CapacityFlags(p.backend, r.parse), p.extraArgs[i]) && Unknown(r.placement(p.backend), p.extraArgs[i])
    requires forall i :: 0 <= i < |q.extraArgs| ==>
      Unknown(CapacityFlags(q.backend, r.parse), q.extraArgs[i]) && Unknown(r.placement(q.backend), q.extraArgs[i])
    ensures p.extraArgs == q.extraArgs
  {
    ConfigKeeps(p, r);
    ConfigKeeps(q, r);
  }

  /** The names under which the engines take their capacity. */
  predicate NamesCapacity(backend: Backend, name: string) {
    || (backend == Vllm && name == "--max-num-seqs")
    || (backend == LlamaCpp && (name == "--parallel" || name == "-np"))
  }

  /** A capacity option with the value beside it is dropped if and only if the value is a
      positive number. */
  lemma CapacityDroppedExactly(backend: Backend, parse: Parser, name: string, value: string)
    requires NamesCapacity(backend, name) && '=' !in value && !NamesCapacity(backend, value)
    ensures Strip(CapacityFlags(backend, parse), [name, value]) ==
      if parse(value).Some? && parse(value).value > 0 then [] else [name, value]
  {
    NamesAre(backend, parse, name);
    NamesAre(backend, parse, value);
    PairStripped(CapacityFlags(backend, parse), name, value);
  }

  lemma NamesAre(backend: Backend, parse: Parser, name: string)
    ensures name in CapacityFlags(backend, parse).values <==> NamesCapacity(backend, name)
    ensures NamesCapacity(backend, name) ==> '=' !in name
  {
    assert name in CapacityOptions(backend) <==> NamesCapacity(backend, name);
  }

  lemma PairStripped(f: Flags, name: string, value: string)
    requires '=' !in name && '=' !in value && f.booleans == {} && name in f.values && value !in f.values
    ensures Strip(f, [name, value]) == if f.values[name](value) then [] else [name, value]
  {
    var args := [name, value];
    NameJudged(f, name, Some(value));
    NameJudged(f, value, None);
    Advance(f, args, 0, []);
    Advance(f, args, 1, [name]);
    assert args[0..] == args && args[1..] == [value] && args[2..] == [];
  }

  /** A capacity option: its name with the value beside it or inline. */
  predicate CapacityOption(p: Profile, parse: Parser, option: Piece) {
    match option
    case Kept(i) => false
    case Alone(i) =>
      var (name, inline) := Partition(i);
      name in CapacityOptions(p.backend) && inline.Some? && AtLeast(parse, 1, inline.value)
    case Pair(n, v) => n in CapacityOptions(p.backend) && AtLeast(parse, 1, v)
  }

  /** Adding a capacity option, wherever the scan looks, leaves the identity alone,
      since the text of an option is not a number. */
  lemma IdentityIgnoresCapacity(p: Profile, r: Readings, k: nat, option: Piece)
    requires k <= |p.extraArgs| && Boundary(CapacityFlags(p.backend, r.parse), p.extraArgs, k)
    requires CapacityOption(p, r.parse, option) && r.parse(Tokens(option)[0]).None?
    ensures SemanticLoadConfig(p.(extraArgs := Spliced(p.extraArgs, k, Tokens(option))), r) == SemanticLoadConfig(p, r)
  {
    InsertionIsInvisible(CapacityFlags(p.backend, r.parse), p.extraArgs, k, option);
  }

  /** So two profiles that differ in a capacity option there are one deployment. */
  lemma CapacityMayChange(p: Profile, r: Readings, k: nat, a: Piece, b: Piece)
    requires k <= |p.extraArgs| && Boundary(CapacityFlags(p.backend, r.parse), p.extraArgs, k)
    requires CapacityOption(p, r.parse, a) && r.parse(Tokens(a)[0]).None?
    requires CapacityOption(p, r.parse, b) && r.parse(Tokens(b)[0]).None?
    ensures SemanticLoadConfig(p.(extraArgs := Spliced(p.extraArgs, k, Tokens(a))), r)
         == SemanticLoadConfig(p.(extraArgs := Spliced(p.extraArgs, k, Tokens(b))), r)
  {
    IdentityIgnoresCapacity(p, r, k, a);
    IdentityIgnoresCapacity(p, r, k, b);
  }
}
