/**
 * The in-process backend (memory_store.go): two independent maps, one from
 * keys to strings and one from keys to struct values. Writes overwrite in
 * place, reads return the stored value or the missing-key error, and the
 * ttl argument is accepted and never used. The read/write locks are left
 * out: the model is single-threaded.
 *
 * `Apply` is the backend's behaviour on one call, `Run` its behaviour on a
 * sequence of calls; the lemmas state what holds over every such sequence.
 * `MemoryStore` is the object itself, each method proved against its maps
 * and against `Apply` on them, so the lemmas about `Run` are about it.
 */
module Memory {
  import opened Store

  /** The two maps of a MemoryStore (stringStore and structStore). */
  datatype Maps<V> = Maps(strings: map<string, string>, structs: map<string, V>)

  /** The maps of a store just made by NewMemoryStore. */
  function Empty<V>(): Maps<V>
  {
    Maps(map[], map[])
  }

  /** The memory backend implements every Store method except Forget. */
  predicate Handles<V>(c: Call<V>)
  {
    !c.ForgetCall?
  }

  predicate AllHandled<V>(calls: seq<Call<V>>)
  {
    forall i :: 0 <= i < |calls| ==> Handles(calls[i])
  }

  /** The reply of the memory backend to one call, and its maps afterwards. */
  function Apply<V>(s: Maps<V>, c: Call<V>): Transition<Maps<V>, V>
    requires Handles(c)
  {
    match c
    case GetStringCall(k) =>
      if k in s.strings then Transition(Reply(s.strings[k], None, None), s)
      else Transition(Reply("", None, Some(MissingKey)), s)
    case PutStringCall(k, d, _) =>
      Transition(Reply("", None, None), s.(strings := s.strings[k := d]))
    case GetStructCall(k) =>
      if k in s.structs then Transition(Reply("", Some(s.structs[k]), None), s)
      else Transition(Reply("", None, Some(MissingKey)), s)
    case PutStructCall(k, v, _) =>
      Transition(Reply("", None, None), s.(structs := s.structs[k := v]))
  }

  /** The maps after the calls, made one after another from `s`. */
  function Run<V>(s: Maps<V>, calls: seq<Call<V>>): Maps<V>
    requires AllHandled(calls)
    decreases |calls|
  {
    if calls == [] then s else Run(Apply(s, calls[0]).next, calls[1..])
  }

  predicate IsGet<V>(c: Call<V>)
  {
    c.GetStringCall? || c.GetStructCall?
  }

  predicate IsStringCall<V>(c: Call<V>)
  {
    c.GetStringCall? || c.PutStringCall?
  }

  predicate IsStructCall<V>(c: Call<V>)
  {
    c.GetStructCall? || c.PutStructCall?
  }

  predicate WritesString<V>(c: Call<V>, k: string)
  {
    c.PutStringCall? && c.key == k
  }

  predicate WritesStruct<V>(c: Call<V>, k: string)
  {
    c.PutStructCall? && c.key == k
  }

  /** The call with its ttl replaced by zero: what is left of it once ttl is ignored. */
  function WithoutTtl<V>(c: Call<V>): Call<V>
  {
    match c
    case PutStringCall(k, d, _) => PutStringCall(k, d, 0)
    case PutStructCall(k, v, _) => PutStructCall(k, v, 0)
    case _ => c
  }

  /** The string calls among `calls`, in order. */
  function StringCalls<V>(calls: seq<Call<V>>): (r: seq<Call<V>>)
    ensures forall i :: 0 <= i < |r| ==> IsStringCall(r[i])
  {
    if calls == [] then []
    else (if IsStringCall(calls[0]) then [calls[0]] else []) + StringCalls(calls[1..])
  }

  /** The struct calls among `calls`, in order. */
  function StructCalls<V>(calls: seq<Call<V>>): (r: seq<Call<V>>)
    ensures forall i :: 0 <= i < |r| ==> IsStructCall(r[i])
  {
    if calls == [] then []
    else (if IsStructCall(calls[0]) then [calls[0]] else []) + StructCalls(calls[1..])
  }

  /** Gets never change either map, however many are made. */
  lemma {:induction false} GetsChangeNothing<V>(s: Maps<V>, calls: seq<Call<V>>)
    requires forall i :: 0 <= i < |calls| ==> IsGet(calls[i])
    ensures AllHandled(calls) && Run(s, calls) == s
  {
    if calls != [] {
      GetsChangeNothing(s, calls[1..]);
    }
  }

  /** The ttl of every put is ignored: runs that differ only in ttls end in the same maps. */
  lemma {:induction false} TtlIsIgnored<V>(s: Maps<V>, a: seq<Call<V>>, b: seq<Call<V>>)
    requires AllHandled(a)
    requires |a| == |b| && forall i :: 0 <= i < |a| ==> WithoutTtl(a[i]) == WithoutTtl(b[i])
    ensures AllHandled(b) && Run(s, a) == Run(s, b)
    decreases |a|
  {
    assert forall i :: 0 <= i < |b| ==> Handles(b[i]) by {
      forall i | 0 <= i < |b| ensures Handles(b[i]) {
        assert WithoutTtl(a[i]) == WithoutTtl(b[i]);
      }
    }
    if a != [] {
      assert WithoutTtl(a[0]) == WithoutTtl(b[0]);
      assert Apply(s, a[0]).next == Apply(s, b[0]).next;
      TtlIsIgnored(Apply(s, a[0]).next, a[1..], b[1..]);
    }
  }

  /** A string key that no call writes keeps its binding (or its absence). */
  lemma {:induction false} StringKeyUntouched<V>(s: Maps<V>, calls: seq<Call<V>>, k: string)
    requires AllHandled(calls)
    requires forall i :: 0 <= i < |calls| ==> !WritesString(calls[i], k)
    ensures (k in Run(s, calls).strings) == (k in s.strings)
    ensures k in s.strings ==> Run(s, calls).strings[k] == s.strings[k]
    decreases |calls|
  {
    if calls != [] {
      assert !WritesString(calls[0], k);
      StringKeyUntouched(Apply(s, calls[0]).next, calls[1..], k);
    }
  }

  /** A struct key that no call writes keeps its binding (or its absence). */
  lemma {:induction false} StructKeyUntouched<V>(s: Maps<V>, calls: seq<Call<V>>, k: string)
    requires AllHandled(calls)
    requires forall i :: 0 <= i < |calls| ==> !WritesStruct(calls[i], k)
    ensures (k in Run(s, calls).structs) == (k in s.structs)
    ensures k in s.structs ==> Run(s, calls).structs[k] == s.structs[k]
    decreases |calls|
  {
    if calls != [] {
      assert !WritesStruct(calls[0], k);
      StructKeyUntouched(Apply(s, calls[0]).next, calls[1..], k);
    }
  }

  /** On a new store, a string key that was never put reads as ("", ErrMissingKey). */
  lemma NeverWrittenStringIsMissing<V>(calls: seq<Call<V>>, k: string)
    requires AllHandled(calls)
    requires forall i :: 0 <= i < |calls| ==> !WritesString(calls[i], k)
    ensures Apply(Run(Empty<V>(), calls), GetStringCall(k)).reply == Reply("", None, Some(MissingKey))
  {
    StringKeyUntouched(Empty<V>(), calls, k);
  }

  /** On a new store, a struct key that was never put reads as ErrMissingKey, destination untouched. */
  lemma NeverWrittenStructIsMissing<V>(calls: seq<Call<V>>, k: string)
    requires AllHandled(calls)
    requires forall i :: 0 <= i < |calls| ==> !WritesStruct(calls[i], k)
    ensures Apply(Run(Empty<V>(), calls), GetStructCall(k)).reply == Reply("", None, Some(MissingKey))
  {
    StructKeyUntouched(Empty<V>(), calls, k);
  }

  /** A string put is read back by GetString, whatever calls not putting that key come between. */
  lemma PutStringThenGetString<V>(s: Maps<V>, k: string, d: string, ttl: Duration, rest: seq<Call<V>>)
    requires AllHandled(rest)
    requires forall i :: 0 <= i < |rest| ==> !WritesString(rest[i], k)
    ensures AllHandled([PutStringCall(k, d, ttl)] + rest)
    ensures Apply(Run(s, [PutStringCall(k, d, ttl)] + rest), GetStringCall(k)).reply == Reply(d, None, None)
  {
    var calls := [PutStringCall(k, d, ttl)] + rest;
    assert calls[0] == PutStringCall(k, d, ttl) && calls[1..] == rest;
    StringKeyUntouched(Apply(s, calls[0]).next, rest, k);
  }

  /** A struct put is read back by GetStruct, whatever calls not putting that key come between. */
  lemma PutStructThenGetStruct<V>(s: Maps<V>, k: string, v: V, ttl: Duration, rest: seq<Call<V>>)
    requires AllHandled(rest)
    requires forall i :: 0 <= i < |rest| ==> !WritesStruct(rest[i], k)
    ensures AllHandled([PutStructCall(k, v, ttl)] + rest)
    ensures Apply(Run(s, [PutStructCall(k, v, ttl)] + rest), GetStructCall(k)).reply == Reply("", Some(v), None)
  {
    var calls := [PutStructCall(k, v, ttl)] + rest;
    assert calls[0] == PutStructCall(k, v, ttl) && calls[1..] == rest;
    StructKeyUntouched(Apply(s, calls[0]).next, rest, k);
  }

  /**
   * The string map depends on the string calls alone: the struct calls of a
   * run, and the struct map it starts from, make no difference to it.
   */
  lemma {:induction false} StringsIgnoreStructs<V>(s: Maps<V>, t: Maps<V>, calls: seq<Call<V>>)
    requires AllHandled(calls) && s.strings == t.strings
    ensures AllHandled(StringCalls(calls))
    ensures Run(s, calls).strings == Run(t, StringCalls(calls)).strings
    decreases |calls|
  {
    if calls != [] {
      var c, rest := calls[0], calls[1..];
      StringsIgnoreStructs(Apply(s, c).next, if IsStringCall(c) then Apply(t, c).next else t, rest);
      if IsStringCall(c) {
        assert StringCalls(calls) == [c] + StringCalls(rest);
        assert ([c] + StringCalls(rest))[1..] == StringCalls(rest);
      } else {
        assert StringCalls(calls) == StringCalls(rest);
      }
    }
  }

  /**
   * The struct map depends on the struct calls alone: the string calls of a
   * run, and the string map it starts from, make no difference to it.
   */
  lemma {:induction false} StructsIgnoreStrings<V>(s: Maps<V>, t: Maps<V>, calls: seq<Call<V>>)
    requires AllHandled(calls) && s.structs == t.structs
    ensures AllHandled(StructCalls(calls))
    ensures Run(s, calls).structs == Run(t, StructCalls(calls)).structs
    decreases |calls|
  {
    if calls != [] {
      var c, rest := calls[0], calls[1..];
      StructsIgnoreStrings(Apply(s, c).next, if IsStructCall(c) then Apply(t, c).next else t, rest);
      if IsStructCall(c) {
        assert StructCalls(calls) == [c] + StructCalls(rest);
        assert ([c] + StructCalls(rest))[1..] == StructCalls(rest);
      } else {
        assert StructCalls(calls) == StructCalls(rest);
      }
    }
  }

  /** The MemoryStore object: the two maps are fields that the puts update in place. */
  class MemoryStore<V> {
    var strings: map<string, string>
    var structs: map<string, V>

    ghost function Model(): Maps<V>
      reads this
    {
      Maps(strings, structs)
    }

    /** NewMemoryStore */
    constructor ()
      ensures Model() == Empty()
    {
      strings := map[];
      structs := map[];
    }

    method GetString(key: string) returns (val: string, err: Option<Error>)
      ensures key in strings ==> val == strings[key] && err == None
      ensures key !in strings ==> val == "" && err == Some(MissingKey)
      ensures Apply(Model(), GetStringCall(key)).reply == Reply(val, None, err)
    {
      if key in strings {
        val, err := strings[key], None;
      } else {
        val, err := "", Some(MissingKey);
      }
    }

    method PutString(key: string, data: string, ttl: Duration) returns (err: Option<Error>)
      modifies this`strings
      ensures err == None
      ensures strings == old(strings)[key := data]
      ensures var t := Apply(old(Model()), PutStringCall(key, data, ttl));
        Model() == t.next && err == t.reply.err
    {
      strings := strings[key := data];
      err := None;
    }

    /** `data` is the destination's value before the call, `out` its value after it. */
    method GetStruct(key: string, data: V) returns (out: V, err: Option<Error>)
      ensures key in structs ==> out == structs[key] && err == None
      ensures key !in structs ==> out == data && err == Some(MissingKey)
      ensures var t := Apply(Model(), GetStructCall(key));
        out == Destination(t.reply, data) && err == t.reply.err
    {
      if key in structs {
        out, err := structs[key], None;
      } else {
        out, err := data, Some(MissingKey);
      }
    }

    method PutStruct(key: string, data: V, ttl: Duration) returns (err: Option<Error>)
      modifies this`structs
      ensures err == None
      ensures structs == old(structs)[key := data]
      ensures var t := Apply(old(Model()), PutStructCall(key, data, ttl));
        Model() == t.next && err == t.reply.err
    {
      structs := structs[key := data];
      err := None;
    }
  }

  /** The struct the tests store (memroy_store_test.go). */
  datatype Demo = Demo(data: string)

  /** A new store reports a missing string key as ("", ErrMissingKey). */
  method GetStringMissingKeyScenario() returns (out: string, err: Option<Error>)
    ensures out == "" && err == Some(MissingKey)
  {
    var store := new MemoryStore<Demo>();
    out, err := store.GetString("bongo");
  }

  /** A string put is read back. */
  method GetStringHitScenario() returns (out: string, err: Option<Error>)
    ensures out == "bingo" && err == None
  {
    var store := new MemoryStore<Demo>();
    var _ := store.PutString("bongo", "bingo", 0);
    out, err := store.GetString("bongo");
  }

  /** A new store reports a missing struct key and leaves the destination as it was. */
  method GetStructMissingKeyScenario() returns (out: Demo, err: Option<Error>)
    ensures out == Demo("") && err == Some(MissingKey)
  {
    var store := new MemoryStore<Demo>();
    out, err := store.GetStruct("bongo", Demo(""));
  }

  /** A struct put is read back into the destination. */
  method GetStructHitScenario() returns (out: Demo, err: Option<Error>)
    ensures out.data == "bingo" && err == None
  {
    var store := new MemoryStore<Demo>();
    var _ := store.PutStruct("bongo", Demo("bingo"), 0);
    out, err := store.GetStruct("bongo", Demo(""));
  }
}
