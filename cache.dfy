/**
 * The cache facade (cache.go): a Cache wraps one store, forwards the five
 * Store methods to it unchanged, and adds the "remember" helpers, a single
 * pass of check, compute on a miss, store, and re-read, with an early return
 * on every error.
 *
 * A Cache is itself a Store, so it may wrap another Cache. The wrapped store
 * is a `Backend`: a MemoryStore, an arbitrary store (`AnyStore`), or another
 * Cache. All three are described by one abstract `StoreState` and one
 * transition function `Step`, and every Cache method is proved against them:
 * the remember helpers against `RememberStringFlow` and `RememberStructFlow`,
 * whose properties are the lemmas at the end, for any store and for the
 * memory backend.
 */
module CacheFacade {
  import opened Store
  import opened Memory

  /** What a store is at one moment, as far as its replies go. */
  datatype StoreState<!V> =
    | MemoryState(maps: Maps<V>)
    | AnyState(replies: seq<Call<V>> -> Reply<V>, history: seq<Call<V>>)

  /** Whether the store offers the call: a MemoryStore has no Forget. */
  predicate Answers<V>(s: StoreState<V>, c: Call<V>)
  {
    s.AnyState? || Handles(c)
  }

  /** The reply of a store to one call and its state afterwards. */
  function Step<V>(s: StoreState<V>, c: Call<V>): Transition<StoreState<V>, V>
    requires Answers(s, c)
  {
    match s
    case MemoryState(m) =>
      var t := Apply(m, c);
      Transition(t.reply, MemoryState(t.next))
    case AnyState(replies, h) =>
      Transition(replies(h + [c]), AnyState(replies, h + [c]))
  }

  /** The store a Cache wraps. */
  datatype Backend<V> =
    | OnMemory(mem: MemoryStore<V>)
    | OnAny(any: AnyStore<V>)
    | OnCache(inner: Cache<V>)

  /** What RememberString returns, whether it invoked f, and the store's state afterwards. */
  datatype StringResult<!V> = StringResult(val: string, err: Option<Error>, called: bool, next: StoreState<V>)

  /** What RememberStruct returns, the destination afterwards, whether it invoked f, and the store's state. */
  datatype StructResult<!V> = StructResult(out: V, err: Option<Error>, called: bool, next: StoreState<V>)

  /**
   * RememberString on a store in state `s`, with `f` standing for the outcome
   * of the compute callback were it invoked.
   */
  function RememberStringFlow<V>(s: StoreState<V>, key: string, ttl: Duration, f: Outcome<string>): StringResult<V>
  {
    var first := Step(s, GetStringCall(key));
    if first.reply.err.None? then
      StringResult(first.reply.text, None, false, first.next)
    else if first.reply.err != Some(MissingKey) then
      StringResult("", first.reply.err, false, first.next)
    else
      match f
      case Err(e) => StringResult("", Some(e), true, first.next)
      case Ok(item) =>
        var put := Step(first.next, PutStringCall(key, item, ttl));
        if put.reply.err.Some? then
          StringResult("", put.reply.err, true, put.next)
        else
          var again := Step(put.next, GetStringCall(key));
          StringResult(again.reply.text, again.reply.err, true, again.next)
  }

  /**
   * RememberStruct on a store in state `s`, with `data` the destination's
   * value before the call.
   */
  function RememberStructFlow<V>(s: StoreState<V>, key: string, data: V, ttl: Duration, f: Outcome<V>): StructResult<V>
  {
    var first := Step(s, GetStructCall(key));
    var held := Destination(first.reply, data);
    if first.reply.err.None? then
      StructResult(held, None, false, first.next)
    else if first.reply.err != Some(MissingKey) then
      StructResult(held, first.reply.err, false, first.next)
    else
      match f
      case Err(e) => StructResult(held, Some(e), true, first.next)
      case Ok(item) =>
        var put := Step(first.next, PutStructCall(key, item, ttl));
        if put.reply.err.Some? then
          StructResult(held, put.reply.err, true, put.next)
        else
          var again := Step(put.next, GetStructCall(key));
          StructResult(Destination(again.reply, held), again.reply.err, true, again.next)
  }

  class Cache<V> {
    const store: Backend<V>
    /** The objects whose fields the wrapped store (at any depth) keeps its data in. */
    ghost const Repr: set<object>
    /** How many Caches are wrapped inside this one. */
    ghost const depth: nat

    ghost predicate Valid()
      decreases depth
    {
      match store
      case OnMemory(m) => Repr == {m}
      case OnAny(a) => Repr == {a}
      case OnCache(c) => c.depth < depth && c.Valid() && Repr == c.Repr
    }

    /** The state of the store at the bottom of the chain of Caches. */
    ghost function State(): StoreState<V>
      requires Valid()
      reads Repr
      decreases depth
    {
      match store
      case OnMemory(m) => MemoryState(m.Model())
      case OnAny(a) => AnyState(a.replies, a.history)
      case OnCache(c) => c.State()
    }

    /** NewCache */
    constructor (store: Backend<V>)
      requires store.OnCache? ==> store.inner.Valid()
      ensures this.store == store && Valid()
    {
      this.store := store;
      match store
      case OnMemory(m) =>
        Repr, depth := {m}, 0;
      case OnAny(a) =>
        Repr, depth := {a}, 0;
      case OnCache(c) =>
        Repr, depth := c.Repr, c.depth + 1;
    }

    method GetString(key: string) returns (val: string, err: Option<Error>)
      requires Valid()
      modifies Repr
      decreases depth
      ensures var t := Step(old(State()), GetStringCall(key));
        val == t.reply.text && err == t.reply.err && State() == t.next
    {
      match store
      case OnMemory(m) =>
        val, err := m.GetString(key);
      case OnAny(a) =>
        val, err := a.GetString(key);
      case OnCache(c) =>
        val, err := c.GetString(key);
    }

    method PutString(key: string, data: string, ttl: Duration) returns (err: Option<Error>)
      requires Valid()
      modifies Repr
      decreases depth
      ensures var t := Step(old(State()), PutStringCall(key, data, ttl));
        err == t.reply.err && State() == t.next
    {
      match store
      case OnMemory(m) =>
        err := m.PutString(key, data, ttl);
      case OnAny(a) =>
        err := a.PutString(key, data, ttl);
      case OnCache(c) =>
        err := c.PutString(key, data, ttl);
    }

    /** `data` is the destination's value before the call, `out` its value after it. */
    method GetStruct(key: string, data: V) returns (out: V, err: Option<Error>)
      requires Valid()
      modifies Repr
      decreases depth
      ensures var t := Step(old(State()), GetStructCall(key));
        out == Destination(t.reply, data) && err == t.reply.err && State() == t.next
    {
      match store
      case OnMemory(m) =>
        out, err := m.GetStruct(key, data);
      case OnAny(a) =>
        out, err := a.GetStruct(key, data);
      case OnCache(c) =>
        out, err := c.GetStruct(key, data);
    }

    method PutStruct(key: string, data: V, ttl: Duration) returns (err: Option<Error>)
      requires Valid()
      modifies Repr
      decreases depth
      ensures var t := Step(old(State()), PutStructCall(key, data, ttl));
        err == t.reply.err && State() == t.next
    {
      match store
      case OnMemory(m) =>
        err := m.PutStruct(key, data, ttl);
      case OnAny(a) =>
        err := a.PutStruct(key, data, ttl);
      case OnCache(c) =>
        err := c.PutStruct(key, data, ttl);
    }

    /** Only a store that has Forget can be asked to forget. */
    method Forget(key: string) returns (err: Option<Error>)
      requires Valid() && Answers(State(), ForgetCall(key))
      modifies Repr
      decreases depth
      ensures var t := Step(old(State()), ForgetCall(key));
        err == t.reply.err && State() == t.next
    {
      match store
      case OnAny(a) =>
        err := a.Forget(key);
      case OnCache(c) =>
        err := c.Forget(key);
    }

    /** `called` records whether the compute callback was invoked; `f` is what it would return. */
    method RememberString(key: string, ttl: Duration, f: Outcome<string>)
      returns (val: string, err: Option<Error>, ghost called: bool)
      requires Valid()
      modifies Repr
      ensures var r := RememberStringFlow(old(State()), key, ttl, f);
        val == r.val && err == r.err && called == r.called && State() == r.next
    {
      var v, e := GetString(key);
      if e.Some? {
        if e.value != MissingKey {
          return "", e, false;
        }
      } else {
        return v, None, false;
      }

      called := true;
      if f.Err? {
        return "", Some(f.error), called;
      }
      var item := f.value;

      var pe := PutString(key, item, ttl);
      if pe.Some? {
        return "", pe, called;
      }
      val, err := GetString(key);
    }

    /** `data` is the destination's value before the call, `out` its value after it. */
    method RememberStruct(key: string, data: V, ttl: Duration, f: Outcome<V>)
      returns (out: V, err: Option<Error>, ghost called: bool)
      requires Valid()
      modifies Repr
      ensures var r := RememberStructFlow(old(State()), key, data, ttl, f);
        out == r.out && err == r.err && called == r.called && State() == r.next
    {
      var e;
      out, e := GetStruct(key, data);
      if e.Some? {
        if e.value != MissingKey {
          return out, e, false;
        }
      } else {
        return out, None, false;
      }

      called := true;
      if f.Err? {
        return out, Some(f.error), called;
      }
      var item := f.value;

      var pe := PutStruct(key, item, ttl);
      if pe.Some? {
        return out, pe, called;
      }
      out, err := GetStruct(key, out);
    }
  }

  /**
   * RememberString against an arbitrary store: f is invoked exactly when the
   * first GetString reports ErrMissingKey; which calls the store then sees,
   * and what is returned, on each path. No put after a failed compute, no
   * re-read after a failed put, and on success the re-read's reply, not f's
   * value, is returned.
   */
  lemma RememberStringOnAnyStore<V>(replies: seq<Call<V>> -> Reply<V>, h: seq<Call<V>>, key: string, ttl: Duration, f: Outcome<string>)
    ensures var r := RememberStringFlow(AnyState(replies, h), key, ttl, f);
      var g := GetStringCall(key);
      var first := replies(h + [g]);
      && r.next.AnyState? && r.next.replies == replies
      && (r.called <==> first.err == Some(MissingKey))
      && (first.err.None? ==> r.val == first.text && r.err == None && r.next.history == h + [g])
      && (first.err.Some? && !r.called ==> r.val == "" && r.err == first.err && r.next.history == h + [g])
      && (r.called && f.Err? ==> r.val == "" && r.err == Some(f.error) && r.next.history == h + [g])
      && (r.called && f.Ok? ==>
            var p := PutStringCall(key, f.value, ttl);
            var put := replies(h + [g, p]);
            && (put.err.Some? ==> r.val == "" && r.err == put.err && r.next.history == h + [g, p])
            && (put.err.None? ==>
                  r.val == replies(h + [g, p, g]).text && r.err == replies(h + [g, p, g]).err
                  && r.next.history == h + [g, p, g]))
  {
    var g := GetStringCall(key);
    if f.Ok? {
      var p := PutStringCall(key, f.value, ttl);
      assert h + [g] + [p] == h + [g, p];
      assert h + [g, p] + [g] == h + [g, p, g];
    }
  }

  /**
   * The result is the re-read, not the computed item: a store that answers
   * the re-read with another value makes RememberString return that value.
   */
  lemma RememberStringReturnsReread()
    ensures var replies := (calls: seq<Call<int>>) =>
        if |calls| == 1 then Reply("", None, Some(MissingKey))
        else if |calls| == 3 then Reply("pears", None, None)
        else Reply("", None, None);
      var r := RememberStringFlow(AnyState(replies, []), "bongo", 0, Ok("apples"));
      r.called && r.val == "pears" && r.err == None
  {
  }

  /**
   * RememberString over a MemoryStore: a hit returns the stored value and
   * changes nothing; a miss invokes f, and a computed item is stored under
   * the key and returned exactly, while a compute error is returned with ""
   * and nothing stored.
   */
  lemma RememberStringOnMemory<V>(m: Maps<V>, key: string, ttl: Duration, f: Outcome<string>)
    ensures var r := RememberStringFlow(MemoryState(m), key, ttl, f);
      && (key in m.strings ==>
            !r.called && r.val == m.strings[key] && r.err == None && r.next == MemoryState(m))
      && (key !in m.strings ==> r.called)
      && (key !in m.strings && f.Ok? ==>
            r.val == f.value && r.err == None
            && r.next == MemoryState(m.(strings := m.strings[key := f.value])))
      && (key !in m.strings && f.Err? ==>
            r.val == "" && r.err == Some(f.error) && r.next == MemoryState(m))
  {
  }

  /**
   * Over a MemoryStore, f is invoked at most once across two RememberString
   * calls on one key: after a call that succeeds, the next one is a hit that
   * returns the same value and leaves the store as it was.
   */
  lemma RememberStringComputesOnce<V>(m: Maps<V>, key: string, ttl: Duration, f: Outcome<string>, ttl': Duration, f': Outcome<string>)
    ensures var r := RememberStringFlow(MemoryState(m), key, ttl, f);
      r.err.None? ==>
        var r' := RememberStringFlow(r.next, key, ttl', f');
        !r'.called && r'.val == r.val && r'.err == None && r'.next == r.next
  {
  }

  /**
   * RememberStruct against an arbitrary store: the same machine on the
   * struct API. The destination keeps whatever the first GetStruct put in
   * it, and after a successful put the re-read fills it again.
   */
  lemma RememberStructOnAnyStore<V>(replies: seq<Call<V>> -> Reply<V>, h: seq<Call<V>>, key: string, data: V, ttl: Duration, f: Outcome<V>)
    ensures var r := RememberStructFlow(AnyState(replies, h), key, data, ttl, f);
      var g := GetStructCall(key);
      var first := replies(h + [g]);
      var held := Destination(first, data);
      && r.next.AnyState? && r.next.replies == replies
      && (r.called <==> first.err == Some(MissingKey))
      && (first.err.None? ==> r.out == held && r.err == None && r.next.history == h + [g])
      && (first.err.Some? && !r.called ==> r.out == held && r.err == first.err && r.next.history == h + [g])
      && (r.called && f.Err? ==> r.out == held && r.err == Some(f.error) && r.next.history == h + [g])
      && (r.called && f.Ok? ==>
            var p := PutStructCall(key, f.value, ttl);
            var put := replies(h + [g, p]);
            && (put.err.Some? ==> r.out == held && r.err == put.err && r.next.history == h + [g, p])
            && (put.err.None? ==>
                  r.out == Destination(replies(h + [g, p, g]), held) && r.err == replies(h + [g, p, g]).err
                  && r.next.history == h + [g, p, g]))
  {
    var g := GetStructCall(key);
    if f.Ok? {
      var p := PutStructCall(key, f.value, ttl);
      assert h + [g] + [p] == h + [g, p];
      assert h + [g, p] + [g] == h + [g, p, g];
    }
  }

  /**
   * RememberStruct over a MemoryStore: a hit fills the destination with the
   * stored value; a miss invokes f, and a computed item is stored and lands
   * in the destination, while a compute error leaves both as they were.
   */
  lemma RememberStructOnMemory<V>(m: Maps<V>, key: string, data: V, ttl: Duration, f: Outcome<V>)
    ensures var r := RememberStructFlow(MemoryState(m), key, data, ttl, f);
      && (key in m.structs ==>
            !r.called && r.out == m.structs[key] && r.err == None && r.next == MemoryState(m))
      && (key !in m.structs ==> r.called)
      && (key !in m.structs && f.Ok? ==>
            r.out == f.value && r.err == None
            && r.next == MemoryState(m.(structs := m.structs[key := f.value])))
      && (key !in m.structs && f.Err? ==>
            r.out == data && r.err == Some(f.error) && r.next == MemoryState(m))
  {
  }

  /**
   * Over a MemoryStore, f is invoked at most once across two RememberStruct
   * calls on one key: after a call that succeeds, the next one is a hit that
   * yields the same value and leaves the store as it was.
   */
  lemma RememberStructComputesOnce<V>(m: Maps<V>, key: string, data: V, ttl: Duration, f: Outcome<V>, data': V, ttl': Duration, f': Outcome<V>)
    ensures var r := RememberStructFlow(MemoryState(m), key, data, ttl, f);
      r.err.None? ==>
        var r' := RememberStructFlow(r.next, key, data', ttl', f');
        !r'.called && r'.out == r.out && r'.err == None && r'.next == r.next
  {
  }

  /** A Cache over a Cache over a new MemoryStore: a miss computes, stores and returns "apples". */
  method RememberStringMissScenario() returns (out: string, err: Option<Error>, ghost called: bool)
    ensures out == "apples" && err == None && called
  {
    var mem := new MemoryStore<Demo>();
    var memC := new Cache(OnMemory(mem));
    var cache := new Cache(OnCache(memC));
    out, err, called := cache.RememberString("bongo", 30_000_000_000, Ok("apples"));
  }

  /** With "bongo" already put, RememberString returns it without invoking f. */
  method RememberStringHitScenario() returns (out: string, err: Option<Error>, ghost called: bool)
    ensures out == "apples" && err == None && !called
  {
    var mem := new MemoryStore<Demo>();
    var memC := new Cache(OnMemory(mem));
    var cache := new Cache(OnCache(memC));
    var _ := cache.PutString("bongo", "apples", 30_000_000_000);
    out, err, called := cache.RememberString("bongo", 30_000_000_000, Ok("apples"));
  }

  /** A miss on the struct API computes, stores and fills the destination with the computed struct. */
  method RememberStructMissScenario() returns (out: Demo, err: Option<Error>, ghost called: bool)
    ensures out.data == "oranges" && err == None && called
  {
    var mem := new MemoryStore<Demo>();
    var memC := new Cache(OnMemory(mem));
    var cache := new Cache(OnCache(memC));
    out, err, called := cache.RememberStruct("bongo", Demo(""), 30_000_000_000, Ok(Demo("oranges")));
  }

  /** With a struct already put, RememberStruct fills the destination without invoking f. */
  method RememberStructHitScenario() returns (out: Demo, err: Option<Error>, ghost called: bool)
    ensures out.data == "pears" && err == None && !called
  {
    var mem := new MemoryStore<Demo>();
    var memC := new Cache(OnMemory(mem));
    var cache := new Cache(OnCache(memC));
    var _ := cache.PutStruct("bongo", Demo("pears"), 30_000_000_000);
    out, err, called := cache.RememberStruct("bongo", Demo(""), 30_000_000_000, Ok(Demo("pears")));
  }
}
