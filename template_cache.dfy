/** `codegen`: each template generator is wrapped in a function `make_func_code(numfields)`
    that builds the template for `numfields` placeholder names, executes its text and returns
    the one function it defines, memoised by `functools.lru_cache` with its default size. */
module Codegen {
  import opened Seqs
  import opened Generators
  import opened PlaceholderNames
  import opened CodeObjects

  /** The default `maxsize` of `lru_cache()`. */
  const MaxSize: nat := 128

  /** What executing a template's text yields: the function it defines, or the `SyntaxError`
      the interpreter raises. */
  datatype Compiled = Compiled(fn: Func) | SyntaxError

  /** The uncached `make_func_code(count)`: the generator's text for `_0.._{count-1}`, executed.
      `compile` stands for `exec` followed by `d.popitem()[1]`. */
  function Template(generate: seq<string> -> string, compile: string -> Compiled, count: nat): Compiled
  {
    compile(generate(Placeholders(count)))
  }

  /** The recency list after an insertion into a full cache has dropped its oldest entry. */
  function Evict(recency: seq<nat>): seq<nat>
  {
    if |recency| >= MaxSize then recency[1..] else recency
  }

  /** The cached functions after an insertion into a full cache has dropped the oldest. */
  function Shrunk(memo: map<nat, Func>, recency: seq<nat>): map<nat, Func>
  {
    if |recency| >= MaxSize then memo - {recency[0]} else memo
  }

  /** A cache of at most `MaxSize` entries, listed once each in `recency`, each the function
      a fresh compile of its count would give. */
  ghost predicate CacheInvariant(generate: seq<string> -> string, compile: string -> Compiled,
                                 memo: map<nat, Func>, recency: seq<nat>)
  {
    && NoDuplicates(recency)
    && |recency| <= MaxSize
    && (forall n :: n in memo <==> n in recency)
    && (forall n :: n in memo ==> Template(generate, compile, n) == Compiled(memo[n]))
  }

  /** A hit keeps the cache consistent when it moves its count to the most recent end. */
  lemma TouchKeepsInvariant(generate: seq<string> -> string, compile: string -> Compiled,
                            memo: map<nat, Func>, recency: seq<nat>, n: nat)
    requires CacheInvariant(generate, compile, memo, recency) && n in memo
    ensures CacheInvariant(generate, compile, memo, Remove(recency, n) + [n])
  {
    var next := Remove(recency, n) + [n];
    forall i, j | 0 <= i < j < |next| ensures next[i] != next[j] {
      if j == |next| - 1 {
        assert next[i] in Remove(recency, n);
      }
    }
  }

  /** Dropping the oldest count from the list and from the map keeps the two in step. */
  lemma DropOldest(memo: map<nat, Func>, recency: seq<nat>)
    requires |recency| > 0 && NoDuplicates(recency)
    requires forall n :: n in memo <==> n in recency
    ensures forall n :: n in memo - {recency[0]} <==> n in recency[1..]
    ensures NoDuplicates(recency[1..])
  {
    forall k ensures k in memo - {recency[0]} <==> k in recency[1..] {
      if k in recency && k != recency[0] {
        var i :| 0 <= i < |recency| && recency[i] == k;
        assert recency[1..][i - 1] == k;
      }
      if k in recency[1..] {
        var i :| 0 <= i < |recency[1..]| && recency[1..][i] == k;
        assert recency[i + 1] == k;
      }
    }
  }

  /** Appending a count the list does not hold keeps it free of duplicates. */
  lemma AppendFresh(recency: seq<nat>, n: nat)
    requires NoDuplicates(recency) && n !in recency
    ensures NoDuplicates(recency + [n])
  {
    var next := recency + [n];
    forall i, j | 0 <= i < j < |next| ensures next[i] != next[j] {
      if j == |next| - 1 {
        assert next[i] in recency;
      }
    }
  }

  /** Making room in a full cache keeps it consistent and leaves fewer than `MaxSize`
      entries. */
  lemma EvictKeepsInvariant(generate: seq<string> -> string, compile: string -> Compiled,
                            memo: map<nat, Func>, recency: seq<nat>)
    requires CacheInvariant(generate, compile, memo, recency)
    ensures CacheInvariant(generate, compile, Shrunk(memo, recency), Evict(recency))
    ensures |Evict(recency)| < MaxSize
    ensures forall k :: k in Shrunk(memo, recency) ==> k in memo
  {
    if |recency| >= MaxSize {
      DropOldest(memo, recency);
    }
  }

  /** Caching a freshly compiled function in a cache with room keeps it consistent. */
  lemma InsertKeepsInvariant(generate: seq<string> -> string, compile: string -> Compiled,
                             memo: map<nat, Func>, recency: seq<nat>, n: nat, f: Func)
    requires CacheInvariant(generate, compile, memo, recency) && n !in memo && |recency| < MaxSize
    requires Template(generate, compile, n) == Compiled(f)
    ensures CacheInvariant(generate, compile, memo[n := f], recency + [n])
  {
    AppendFresh(recency, n);
  }

  /** The cache after one `make_func_code(n)` call: a hit makes `n` the most recently used
      count; a miss whose text compiled caches the function, first evicting the least recently
      used count from a full cache; a miss whose text raised leaves the cache as it was. */
  function AfterGet(generate: seq<string> -> string, compile: string -> Compiled,
                    memo: map<nat, Func>, recency: seq<nat>, n: nat): (r: (map<nat, Func>, seq<nat>))
    requires CacheInvariant(generate, compile, memo, recency)
    ensures CacheInvariant(generate, compile, r.0, r.1)
    ensures Template(generate, compile, n).Compiled? ==> n in r.0 && |r.1| > 0 && r.1[|r.1| - 1] == n
    ensures Template(generate, compile, n).SyntaxError? ==> r == (memo, recency)
  {
    if n in memo then
      TouchKeepsInvariant(generate, compile, memo, recency, n);
      (memo, Remove(recency, n) + [n])
    else
      match Template(generate, compile, n)
      case SyntaxError => (memo, recency)
      case Compiled(f) =>
        EvictKeepsInvariant(generate, compile, memo, recency);
        InsertKeepsInvariant(generate, compile, Shrunk(memo, recency), Evict(recency), n, f);
        (Shrunk(memo, recency)[n := f], Evict(recency) + [n])
  }

  /** `(memo', recency', compiles')` is the state after one `make_func_code(n)` call on
      `(memo, recency, compiles)`: the entries are `AfterGet` of the old ones, and the text was
      executed exactly when the count was not cached. */
  ghost predicate GetStep(generate: seq<string> -> string, compile: string -> Compiled,
                          memo: map<nat, Func>, recency: seq<nat>, compiles: seq<nat>,
                          memo': map<nat, Func>, recency': seq<nat>, compiles': seq<nat>, n: nat)
    requires CacheInvariant(generate, compile, memo, recency)
  {
    && (memo', recency') == AfterGet(generate, compile, memo, recency, n)
    && compiles' == compiles + (if n in memo then [] else [n])
  }

  /** Once a count's text has compiled, asking for the same count again is a hit: it executes
      nothing and answers with the cached function. */
  lemma SecondGetHits(generate: seq<string> -> string, compile: string -> Compiled,
                      memo: map<nat, Func>, recency: seq<nat>, n: nat)
    requires CacheInvariant(generate, compile, memo, recency)
    requires Template(generate, compile, n).Compiled?
    ensures var after := AfterGet(generate, compile, memo, recency, n);
      && n in after.0
      && after.0[n] == Template(generate, compile, n).fn
      && AfterGet(generate, compile, after.0, after.1, n).0 == after.0
  {
  }

  /** `make_func_code` with its cache: `memo` maps a field count to the template function
      compiled for it, `recency` lists the cached counts from least to most recently used,
      and `compiles` records every count whose template text was executed. */
  class TemplateCache {
    const generate: seq<string> -> string
    const compile: string -> Compiled
    var memo: map<nat, Func>
    var recency: seq<nat>
    ghost var compiles: seq<nat>

    /** The cache holds at most `MaxSize` entries, each the function a fresh compile of its
        count would give. */
    ghost predicate Valid()
      reads this
    {
      CacheInvariant(generate, compile, memo, recency)
    }

    /** `codegen(func)`: an empty cache around the generator `func`. */
    constructor(generate: seq<string> -> string, compile: string -> Compiled)
      ensures Valid()
      ensures this.generate == generate && this.compile == compile
      ensures memo == map[] && recency == [] && compiles == []
    {
      this.generate := generate;
      this.compile := compile;
      memo := map[];
      recency := [];
      compiles := [];
    }

    /** `make_func_code(n)`: the answer is always what an uncached compile gives. A hit
        executes nothing and makes `n` the most recently used count; a miss executes the text
        once, and caches the function only when executing it succeeded (an exception is not
        cached), evicting the least recently used count from a full cache. */
    method Get(n: nat) returns (r: Compiled)
      requires Valid()
      modifies this
      ensures Valid()
      ensures r == Template(generate, compile, n)
      ensures r.Compiled? ==> n in memo && recency[|recency| - 1] == n
      ensures old(n in memo) ==>
        memo == old(memo) && compiles == old(compiles) && recency == Remove(old(recency), n) + [n]
      ensures !old(n in memo) ==> compiles == old(compiles) + [n]
      ensures !old(n in memo) && r.SyntaxError? ==> memo == old(memo) && recency == old(recency)
      ensures !old(n in memo) && r.Compiled? ==>
        memo == Shrunk(old(memo), old(recency))[n := r.fn] && recency == Evict(old(recency)) + [n]
      ensures GetStep(generate, compile, old(memo), old(recency), old(compiles), memo, recency, compiles, n)
    {
      if n in memo {
        r := Compiled(memo[n]);
        TouchKeepsInvariant(generate, compile, memo, recency, n);
        recency := Remove(recency, n) + [n];
      } else {
        r := Template(generate, compile, n);
        compiles := compiles + [n];
        if r.Compiled? {
          EvictKeepsInvariant(generate, compile, memo, recency);
          InsertKeepsInvariant(generate, compile, Shrunk(memo, recency), Evict(recency), n, r.fn);
          memo, recency := Shrunk(memo, recency), Evict(recency);
          memo, recency := memo[n := r.fn], recency + [n];
        }
      }
    }
  }

  /** The module's five `@codegen` decorations at import time: an empty cache around each
      generator, all executing text with the same interpreter. */
  method LoadGenerators(compile: string -> Compiled)
    returns (inits: TemplateCache, reprs: TemplateCache, eqs: TemplateCache,
             iters: TemplateCache, hashes: TemplateCache)
    ensures fresh(inits) && fresh(reprs) && fresh(eqs) && fresh(iters) && fresh(hashes)
    ensures inits.generate == MakeInit && reprs.generate == MakeRepr && eqs.generate == MakeEq
    ensures iters.generate == MakeIter && hashes.generate == MakeHash
    ensures inits.Valid() && reprs.Valid() && eqs.Valid() && iters.Valid() && hashes.Valid()
    ensures inits.compile == compile && reprs.compile == compile && eqs.compile == compile
    ensures iters.compile == compile && hashes.compile == compile
    ensures inits.memo == map[] && reprs.memo == map[] && eqs.memo == map[]
    ensures iters.memo == map[] && hashes.memo == map[]
  {
    inits := new TemplateCache(MakeInit, compile);
    reprs := new TemplateCache(MakeRepr, compile);
    eqs := new TemplateCache(MakeEq, compile);
    iters := new TemplateCache(MakeIter, compile);
    hashes := new TemplateCache(MakeHash, compile);
  }
}
