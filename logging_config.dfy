/** The structured logger's context and message formatting (logging_config.py). */
module LoggingConfig {
  import opened Wrappers
  import Text

  /** One context entry: a keyword and the `str()` of its value. */
  type Entry = (string, string)

  predicate HasKey(ctx: seq<Entry>, k: string) {
    exists i :: 0 <= i < |ctx| && ctx[i].0 == k
  }

  /** No keyword occurs twice, as in a dictionary. */
  predicate DistinctKeys(ctx: seq<Entry>) {
    forall i, j :: 0 <= i < j < |ctx| ==> ctx[i].0 != ctx[j].0
  }

  /** The position of keyword k, if it is there. */
  function Find(ctx: seq<Entry>, k: string): (r: Option<nat>)
    ensures r.Some? <==> HasKey(ctx, k)
    ensures r.Some? ==> r.value < |ctx| && ctx[r.value].0 == k
  {
    if ctx == [] then None
    else if ctx[0].0 == k then Some(0)
    else
      match Find(ctx[1..], k)
      case None => None
      case Some(i) => Some(i + 1)
  }

  /** The value stored under keyword k, as the dictionary's `get`. */
  function Lookup(ctx: seq<Entry>, k: string): Option<string> {
    match Find(ctx, k)
    case None => None
    case Some(i) => Some(ctx[i].1)
  }

  /** In a context without repeated keywords, the entry at a position is the one found
      under its keyword. */
  lemma LookupAt(ctx: seq<Entry>, i: nat)
    requires DistinctKeys(ctx) && i < |ctx|
    ensures Lookup(ctx, ctx[i].0) == Some(ctx[i].1)
  {
  }

  /** Storing one keyword, as `dict.update` does for each keyword argument: an existing
      keyword keeps its place and takes the new value, a new one is appended. */
  function Update(ctx: seq<Entry>, k: string, v: string): (c: seq<Entry>)
    ensures |c| == (if HasKey(ctx, k) then |ctx| else |ctx| + 1)
    ensures forall i :: 0 <= i < |ctx| ==> c[i].0 == ctx[i].0
    ensures !HasKey(ctx, k) ==> c[|ctx|] == (k, v)
  {
    match Find(ctx, k)
    case Some(i) => ctx[i := (k, v)]
    case None => ctx + [(k, v)]
  }

  /** After storing k, looking k up gives the new value and every other keyword keeps
      its value; keywords stay distinct. */
  lemma UpdateLookup(ctx: seq<Entry>, k: string, v: string, other: string)
    requires DistinctKeys(ctx)
    ensures DistinctKeys(Update(ctx, k, v))
    ensures Lookup(Update(ctx, k, v), k) == Some(v)
    ensures other != k ==> Lookup(Update(ctx, k, v), other) == Lookup(ctx, other)
  {
    var c := Update(ctx, k, v);
    assert c[Find(c, k).value].0 == k;
    if HasKey(ctx, k) {
      var i := Find(ctx, k).value;
      assert c == ctx[i := (k, v)];
    } else {
      assert c[|ctx|] == (k, v);
    }
    if HasKey(ctx, other) && other != k {
      var j := Find(ctx, other).value;
      assert c[j] == ctx[j];
      LookupAt(c, j);
    }
    if !HasKey(ctx, other) && other != k {
      assert !HasKey(c, other) by {
        forall i | 0 <= i < |c| ensures c[i].0 != other {
          if i < |ctx| {
            assert c[i].0 == ctx[i].0;
          }
        }
      }
    }
  }

  /** The context after `update(**updates)`, keyword arguments taken in order. */
  function UpdateAll(ctx: seq<Entry>, updates: seq<Entry>): (c: seq<Entry>)
    ensures |c| >= |ctx|
    ensures forall i :: 0 <= i < |ctx| ==> c[i].0 == ctx[i].0
  {
    if updates == [] then ctx
    else
      var n := |updates| - 1;
      Update(UpdateAll(ctx, updates[..n]), updates[n].0, updates[n].1)
  }

  /** Keywords stay distinct, and a keyword the update does not mention keeps its value. */
  lemma {:induction false} UpdateAllUntouched(ctx: seq<Entry>, updates: seq<Entry>, k: string)
    requires DistinctKeys(ctx)
    requires !HasKey(updates, k)
    ensures DistinctKeys(UpdateAll(ctx, updates))
    ensures Lookup(UpdateAll(ctx, updates), k) == Lookup(ctx, k)
  {
    if updates != [] {
      var n := |updates| - 1;
      assert !HasKey(updates[..n], k) by {
        forall i | 0 <= i < n ensures updates[..n][i].0 != k {
          assert updates[..n][i] == updates[i];
        }
      }
      UpdateAllUntouched(ctx, updates[..n], k);
      assert updates[n].0 != k;
      UpdateLookup(UpdateAll(ctx, updates[..n]), updates[n].0, updates[n].1, k);
    }
  }

  /** A keyword the update mentions ends with the value of its last mention. */
  lemma {:induction false} UpdateAllLast(ctx: seq<Entry>, updates: seq<Entry>, i: nat)
    requires DistinctKeys(ctx)
    requires i < |updates|
    requires forall j :: i < j < |updates| ==> updates[j].0 != updates[i].0
    ensures DistinctKeys(UpdateAll(ctx, updates))
    ensures Lookup(UpdateAll(ctx, updates), updates[i].0) == Some(updates[i].1)
  {
    var n := |updates| - 1;
    var k := updates[i].0;
    if i == n {
      UpdateAllDistinct(ctx, updates[..n]);
      UpdateLookup(UpdateAll(ctx, updates[..n]), k, updates[i].1, k);
    } else {
      assert updates[..n][i] == updates[i];
      forall j | i < j < n ensures updates[..n][j].0 != updates[..n][i].0 {
        assert updates[..n][j] == updates[j];
      }
      UpdateAllLast(ctx, updates[..n], i);
      UpdateLookup(UpdateAll(ctx, updates[..n]), updates[n].0, updates[n].1, k);
    }
  }

  /** Updating never introduces a repeated keyword. */
  lemma {:induction false} UpdateAllDistinct(ctx: seq<Entry>, updates: seq<Entry>)
    requires DistinctKeys(ctx)
    ensures DistinctKeys(UpdateAll(ctx, updates))
  {
    if updates != [] {
      var n := |updates| - 1;
      UpdateAllDistinct(ctx, updates[..n]);
      UpdateLookup(UpdateAll(ctx, updates[..n]), updates[n].0, updates[n].1, updates[n].0);
    }
  }

  /** The "k=v" texts of the entries, in order. */
  function Pairs(ctx: seq<Entry>): (ps: seq<string>)
    ensures |ps| == |ctx|
    ensures forall i :: 0 <= i < |ctx| ==> ps[i] == ctx[i].0 + "=" + ctx[i].1
  {
    if ctx == [] then [] else [ctx[0].0 + "=" + ctx[0].1] + Pairs(ctx[1..])
  }

  /** `AristonLogger`: a named logger carrying a keyword context that is prefixed to
      every message. */
  class AristonLogger {
    const loggerName: string
    var context: seq<Entry>

    ghost predicate Valid()
      reads this
    {
      DistinctKeys(context)
    }

    constructor (name: string)
      ensures Valid()
      ensures loggerName == "ariston." + name && context == []
    {
      loggerName := "ariston." + name;
      context := [];
    }

    /** `set_context`: each keyword argument is stored, replacing the value of a keyword
        already there in its place and appending a new one. */
    method SetContext(updates: seq<Entry>)
      requires Valid()
      modifies this`context
      ensures Valid()
      ensures context == UpdateAll(old(context), updates)
    {
      UpdateAllDistinct(context, []);
      var i := 0;
      while i < |updates|
        invariant 0 <= i <= |updates|
        invariant context == UpdateAll(old(context), updates[..i])
      {
        assert updates[..i + 1][..i] == updates[..i];
        context := Update(context, updates[i].0, updates[i].1);
        i := i + 1;
      }
      assert updates[..i] == updates;
      UpdateAllDistinct(old(context), updates);
    }

    /** `clear_context`: the context is emptied, after which messages go out as given. */
    method ClearContext()
      modifies this`context
      ensures Valid() && context == []
      ensures forall m :: FormatMessage(m) == m
    {
      context := [];
    }

    /** `_format_message`: the message itself without context; otherwise the bracketed
        "k=v" pairs joined by " | ", a space, then the message. */
    function FormatMessage(message: string): (r: string)
      reads this
      ensures context == [] <==> r == message
      ensures |r| >= |message| && r[|r| - |message|..] == message
      ensures context != [] ==>
        r == "[" + Text.Join(Pairs(context), " | ") + "] " + message
    {
      if context == [] then message
      else "[" + Text.Join(Pairs(context), " | ") + "] " + message
    }
  }

  /** `get_logger`: a new logger for `name`, its context empty. */
  method GetLogger(name: string) returns (l: AristonLogger)
    ensures fresh(l) && l.Valid()
    ensures l.loggerName == "ariston." + name && l.context == []
    ensures forall m :: l.FormatMessage(m) == m
  {
    l := new AristonLogger(name);
  }
}
