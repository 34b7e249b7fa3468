/**
 * Symbol resolution of the CPU JIT runtime.
 *
 * When JIT-compiled tile code refers to an external name, the loader asks
 * `Runtime::findSymbol` for its address.  The runtime answers from a table
 * that starts with its own support functions, falls back to the dynamic
 * linker (retrying once without a leading underscore), and memoizes every
 * address the linker finds.  The dynamic linker is an oracle here: a fixed
 * map from exported names to non-null pointers, plus a log of the names it
 * was asked for.
 */
module CpuRuntime {
  import opened Wrappers

  /** The support functions of namespace `rt` whose addresses the table hands out. */
  datatype RuntimeFunction = Barrier | HalfToFloat | FloatToHalf | Add | Mul | Sub | Div | Neg

  /** A non-null pointer; the null pointer the dynamic linker returns for a miss is `None`. */
  type Ptr = p: nat | p > 0 witness 1

  /** A resolved address: one of the runtime's own functions, or a pointer the dynamic linker returned. */
  datatype Address = Builtin(fn: RuntimeFunction) | Loaded(ptr: Ptr)

  /** An `llvm::JITSymbol`: the null symbol, or an evaluated one carrying an address (its flags are always None). */
  datatype JitSymbol = NullSymbol | Evaluated(addr: Address)

  /** The entries the symbol table is created with. */
  const Builtins: map<string, Address> := map[
    "Barrier" := Builtin(Barrier),
    "__gnu_h2f_ieee" := Builtin(HalfToFloat),
    "__gnu_f2h_ieee" := Builtin(FloatToHalf),
    "___truncsfhf2" := Builtin(FloatToHalf),
    "___extendhfsf2" := Builtin(HalfToFloat),
    "_add" := Builtin(Add),
    "_mul" := Builtin(Mul),
    "_sub" := Builtin(Sub),
    "_div" := Builtin(Div),
    "_neg" := Builtin(Neg)
  ]

  /** Every entry of `small` is in `big`, with the same address. */
  predicate Extends(big: map<string, Address>, small: map<string, Address>) {
    forall k :: k in small ==> k in big && big[k] == small[k]
  }

  /** `name[0]` of a `std::string`: the terminating NUL when the string is empty. */
  function FirstChar(s: string): char {
    if s == [] then '\0' else s[0]
  }

  /** Whether a failed search for `name` is retried with the first character stripped. */
  predicate RetriesStripped(name: string) {
    FirstChar(name) == '_' && |name| > 1
  }

  /** One search of the dynamic linker. */
  function Search(exports: map<string, Ptr>, name: string): Option<Ptr> {
    if name in exports then Some(exports[name]) else None
  }

  /** What the dynamic-linker searches for `name` find: the name as given first, then without its underscore. */
  function DynamicSearch(exports: map<string, Ptr>, name: string): (p: Option<Ptr>)
    ensures p.Some? <==> name in exports || (RetriesStripped(name) && name[1..] in exports)
    ensures name in exports ==> p == Some(exports[name])
    ensures name !in exports && p.Some? ==> p == Some(exports[name[1..]])
  {
    match Search(exports, name)
    case Some(ptr) => Some(ptr)
    case None => if RetriesStripped(name) then Search(exports, name[1..]) else None
  }

  /** The names a lookup of `name` hands to the dynamic linker, in order. */
  function Searches(table: map<string, Address>, exports: map<string, Ptr>, name: string): (names: seq<string>)
    ensures name in table <==> names == []
    ensures name !in table ==> names[0] == name
    ensures |names| == 2 <==> name !in table && name !in exports && RetriesStripped(name)
    ensures |names| <= 2
    ensures |names| == 2 ==> names[1] == name[1..]
    ensures name !in table && !(name !in exports && RetriesStripped(name)) ==> names == [name]
  {
    if name in table then []
    else if name !in exports && RetriesStripped(name) then [name, name[1..]]
    else [name]
  }

  /** The message thrown when a name cannot be resolved. */
  function FailureMessage(name: string): string {
    "cpu runtime failed to resolve external symbol reference: \"" + name + "\""
  }

  /** The answer of one lookup of `name`. */
  function Resolve(table: map<string, Address>, exports: map<string, Ptr>, name: string): (r: Result<Address, string>)
    ensures name in table ==> r == Success(table[name])
    ensures r.Success? <==> name in table || DynamicSearch(exports, name).Some?
    ensures r.Success? && name !in table ==> r.value == Loaded(DynamicSearch(exports, name).value)
    ensures r.Failure? ==> r.error == FailureMessage(name)
  {
    if name in table then Success(table[name])
    else match DynamicSearch(exports, name)
      case Some(ptr) => Success(Loaded(ptr))
      case None => Failure(FailureMessage(name))
  }

  /** The table after one lookup of `name`: a dynamic hit is added under the name as requested. */
  function Memoize(table: map<string, Address>, exports: map<string, Ptr>, name: string): (t: map<string, Address>)
    ensures Extends(t, table)
    ensures t.Keys == if Resolve(table, exports, name).Success? then table.Keys + {name} else table.Keys
    ensures Resolve(table, exports, name).Success? ==> t[name] == Resolve(table, exports, name).value
  {
    if name in table then table
    else match DynamicSearch(exports, name)
      case Some(ptr) => table[name := Loaded(ptr)]
      case None => table
  }

  /** The table after a series of lookups, made in order. */
  function TableAfter(table: map<string, Address>, exports: map<string, Ptr>, names: seq<string>): map<string, Address>
    decreases |names|
  {
    if names == [] then table else TableAfter(Memoize(table, exports, names[0]), exports, names[1..])
  }

  /** The dynamic linker: the symbols it exports, and the names it has been asked for. */
  class DynamicLibrary {
    const exports: map<string, Ptr>
    var searches: seq<string>

    constructor (exports: map<string, Ptr>)
      ensures this.exports == exports && searches == []
    {
      this.exports := exports;
      searches := [];
    }

    /** `llvm::sys::DynamicLibrary::SearchForAddressOfSymbol`: None stands for the null pointer. */
    method SearchForAddressOfSymbol(name: string) returns (p: Option<Ptr>)
      modifies this`searches
      ensures p == Search(exports, name)
      ensures searches == old(searches) + [name]
    {
      searches := searches + [name];
      p := if name in exports then Some(exports[name]) else None;
    }
  }

  /**
   * The symbol table of `findSymbol`: a function-static map, created with the
   * builtin entries on first use and shared by every runtime of the process.
   */
  class SymbolTable {
    var symbols: map<string, Address>

    /** The builtin entries are never removed or changed. */
    ghost predicate Valid()
      reads this
    {
      Extends(symbols, Builtins)
    }

    constructor ()
      ensures Valid() && symbols == Builtins
    {
      symbols := Builtins;
    }
  }

  /** The CPU runtime; every runtime resolves through the one process-wide `table`. */
  class Runtime {
    const table: SymbolTable

    constructor (table: SymbolTable)
      ensures this.table == table
    {
      this.table := table;
    }

    /** `Runtime::findSymbol`: resolve `name`, memoizing a dynamic hit; a total miss is a failure. */
    method FindSymbol(name: string, linker: DynamicLibrary) returns (r: Result<Address, string>)
      requires table.Valid()
      modifies table, linker
      ensures table.Valid()
      ensures r == Resolve(old(table.symbols), linker.exports, name)
      ensures table.symbols == Memoize(old(table.symbols), linker.exports, name)
      ensures linker.searches == old(linker.searches) + Searches(old(table.symbols), linker.exports, name)
    {
      if name in table.symbols {
        return Success(table.symbols[name]);
      }
      var ptr := linker.SearchForAddressOfSymbol(name);
      if ptr.None? && FirstChar(name) == '_' && |name| > 1 {
        ptr := linker.SearchForAddressOfSymbol(name[1..]);
      }
      if ptr.Some? {
        var info := Loaded(ptr.value);
        // emplace: inserts, since the lookup above missed
        table.symbols := table.symbols[name := info];
        return Success(info);
      }
      return Failure(FailureMessage(name));
    }

    /** `Runtime::findSymbolInLogicalDylib`: symbols are not split into logical libraries. */
    function FindSymbolInLogicalDylib(name: string): (s: JitSymbol)
      ensures !s.Evaluated?
    {
      NullSymbol
    }
  }

  /**
   * Two runtimes of one process resolving the same name give the same
   * answer: a name the first resolves is found by the second in the shared
   * table with no further search of the dynamic linker, and a name the first
   * fails on is searched for again.
   */
  method FindFromTwoRuntimes(first: Runtime, second: Runtime, name: string, linker: DynamicLibrary)
    returns (r1: Result<Address, string>, r2: Result<Address, string>)
    requires first.table == second.table && first.table.Valid()
    modifies first.table, linker
    ensures first.table.Valid()
    ensures r1 == Resolve(old(first.table.symbols), linker.exports, name)
    ensures r2 == r1 && first.table.symbols == Memoize(old(first.table.symbols), linker.exports, name)
    ensures r1.Success? ==> linker.searches == old(linker.searches) + Searches(old(first.table.symbols), linker.exports, name)
    ensures r1.Failure? ==> linker.searches == old(linker.searches) + Searches(old(first.table.symbols), linker.exports, name)
                                                                   + Searches(old(first.table.symbols), linker.exports, name)
  {
    r1 := first.FindSymbol(name, linker);
    r2 := second.FindSymbol(name, linker);
  }

  /** A builtin name resolves to its table entry without any search, and the table stays as it was. */
  lemma BuiltinResolvesWithoutSearch(table: map<string, Address>, exports: map<string, Ptr>, name: string)
    requires Extends(table, Builtins) && name in Builtins
    ensures Resolve(table, exports, name) == Success(Builtins[name])
    ensures Searches(table, exports, name) == []
    ensures Memoize(table, exports, name) == table
  {
  }

  /** The two spellings of each half-precision conversion resolve to the same runtime function. */
  lemma ConversionAliases(table: map<string, Address>, exports: map<string, Ptr>)
    requires Extends(table, Builtins)
    ensures Resolve(table, exports, "___truncsfhf2") == Resolve(table, exports, "__gnu_f2h_ieee")
                                                     == Success(Builtin(FloatToHalf))
    ensures Resolve(table, exports, "___extendhfsf2") == Resolve(table, exports, "__gnu_h2f_ieee")
                                                      == Success(Builtin(HalfToFloat))
  {
    assert Builtins["___truncsfhf2"] == Builtins["__gnu_f2h_ieee"] == Builtin(FloatToHalf);
    assert Builtins["___extendhfsf2"] == Builtins["__gnu_h2f_ieee"] == Builtin(HalfToFloat);
  }

  /** A lone underscore and a name without a leading underscore are searched once only. */
  lemma NoRetryWithoutStrippableUnderscore(table: map<string, Address>, exports: map<string, Ptr>, name: string)
    requires name !in table
    requires name == "_" || FirstChar(name) != '_'
    ensures Searches(table, exports, name) == [name]
  {
  }

  /**
   * A name known to the linker only without its underscore resolves through the retry,
   * and is memoized under the name as requested, not the stripped one.
   */
  lemma StrippedHitMemoizedUnderRequestedName(table: map<string, Address>, exports: map<string, Ptr>, name: string)
    requires name !in table && name !in exports
    requires RetriesStripped(name) && name[1..] in exports
    ensures Resolve(table, exports, name) == Success(Loaded(exports[name[1..]]))
    ensures Searches(table, exports, name) == [name, name[1..]]
    ensures Memoize(table, exports, name) == table[name := Loaded(exports[name[1..]])]
  {
  }

  /** `s` holds `part` at some position. */
  predicate Contains(s: string, part: string) {
    exists i :: 0 <= i <= |s| && part <= s[i..]
  }

  /** A total miss leaves the table as it was, and the thrown message names the requested symbol. */
  lemma MissLeavesTableAndNamesSymbol(table: map<string, Address>, exports: map<string, Ptr>, name: string)
    requires Resolve(table, exports, name).Failure?
    ensures Memoize(table, exports, name) == table
    ensures Contains(Resolve(table, exports, name).error, name)
  {
    var msg := Resolve(table, exports, name).error;
    var prefix := "cpu runtime failed to resolve external symbol reference: \"";
    assert msg == prefix + name + "\"";
    assert name <= msg[|prefix|..];
  }

  /** Lookups only ever add entries: nothing already in the table is removed or changed. */
  lemma {:induction false} TableOnlyGrows(table: map<string, Address>, exports: map<string, Ptr>, names: seq<string>)
    ensures Extends(TableAfter(table, exports, names), table)
    decreases |names|
  {
    if names != [] {
      var next := Memoize(table, exports, names[0]);
      TableOnlyGrows(next, exports, names[1..]);
    }
  }

  /** Whatever lookups run, the builtin entries stay in the table unchanged. */
  lemma {:induction false} BuiltinsSurvive(table: map<string, Address>, exports: map<string, Ptr>, names: seq<string>)
    requires Extends(table, Builtins)
    ensures Extends(TableAfter(table, exports, names), Builtins)
  {
    TableOnlyGrows(table, exports, names);
  }

  /**
   * Once a name has resolved, every later lookup of it, after any other lookups,
   * gives the same address from the table and asks the linker nothing.
   */
  lemma {:induction false} ResolvedNameIsMemoized(table: map<string, Address>, exports: map<string, Ptr>,
                                                  name: string, later: seq<string>)
    requires Resolve(table, exports, name).Success?
    ensures var t := TableAfter(Memoize(table, exports, name), exports, later);
            Resolve(t, exports, name) == Resolve(table, exports, name) && Searches(t, exports, name) == []
  {
    TableOnlyGrows(Memoize(table, exports, name), exports, later);
  }
}
