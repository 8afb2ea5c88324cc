/**
 * The `Store` capability every backend offers (types.go): string and struct
 * get/put plus removal, the error values they report, and the two kinds of
 * compute callback the cache facade accepts.
 *
 * Go's `Store` interface is open: any type with the five methods is a Store.
 * An arbitrary implementation is modelled by the class `AnyStore`, whose
 * reply to each call is an arbitrary, fixed function of every call it has
 * been asked so far. Any single run of any deterministic or nondeterministic
 * store produces replies that some such function describes, so a property
 * proved for every `AnyStore` holds for every store.
 */
module Store {

  datatype Option<+T> = None | Some(value: T)

  /** The error values a store reports; `None` plays the part of Go's nil. */
  datatype Error =
    | MissingKey           // the sentinel ErrMissingKey
    | Other(msg: string)   // any other failure, e.g. one from a network client

  /** The result of a compute callback (CacheStringFunc, CacheStructFunc). */
  datatype Outcome<+T> = Ok(value: T) | Err(error: Error)

  /** time.Duration: a signed count of nanoseconds. */
  type Duration = int

  /** One call on the Store interface, with its arguments (the context is left out). */
  datatype Call<V> =
    | GetStringCall(key: string)
    | PutStringCall(key: string, data: string, ttl: Duration)
    | GetStructCall(key: string)
    | PutStructCall(key: string, value: V, ttl: Duration)
    | ForgetCall(key: string)

  /**
   * What a store answers to one call: the string a GetString returns, the
   * value a GetStruct writes into its destination (None: the destination is
   * left as it was), and the error every method returns. Puts and Forget use
   * only `err`.
   */
  datatype Reply<V> = Reply(text: string, written: Option<V>, err: Option<Error>)

  /** One step of a store: its reply and the state it is left in. */
  datatype Transition<S, V> = Transition(reply: Reply<V>, next: S)

  /** The destination of a GetStruct after the store has answered. */
  function Destination<V>(reply: Reply<V>, data: V): V
  {
    match reply.written
    case Some(v) => v
    case None => data
  }

  /**
   * A store about which nothing is known: it records every call and answers
   * it with `replies` applied to the whole record, the new call included.
   */
  class AnyStore<V> {
    const replies: seq<Call<V>> -> Reply<V>
    var history: seq<Call<V>>

    constructor (replies: seq<Call<V>> -> Reply<V>)
      ensures this.replies == replies && history == []
    {
      this.replies := replies;
      history := [];
    }

    method GetString(key: string) returns (val: string, err: Option<Error>)
      modifies this`history
      ensures history == old(history) + [GetStringCall(key)]
      ensures val == replies(history).text && err == replies(history).err
    {
      history := history + [GetStringCall(key)];
      var r := replies(history);
      val, err := r.text, r.err;
    }

    method PutString(key: string, data: string, ttl: Duration) returns (err: Option<Error>)
      modifies this`history
      ensures history == old(history) + [PutStringCall(key, data, ttl)]
      ensures err == replies(history).err
    {
      history := history + [PutStringCall(key, data, ttl)];
      err := replies(history).err;
    }

    method GetStruct(key: string, data: V) returns (out: V, err: Option<Error>)
      modifies this`history
      ensures history == old(history) + [GetStructCall(key)]
      ensures out == Destination(replies(history), data) && err == replies(history).err
    {
      history := history + [GetStructCall(key)];
      var r := replies(history);
      out, err := Destination(r, data), r.err;
    }

    method PutStruct(key: string, data: V, ttl: Duration) returns (err: Option<Error>)
      modifies this`history
      ensures history == old(history) + [PutStructCall(key, data, ttl)]
      ensures err == replies(history).err
    {
      history := history + [PutStructCall(key, data, ttl)];
      err := replies(history).err;
    }

    method Forget(key: string) returns (err: Option<Error>)
      modifies this`history
      ensures history == old(history) + [ForgetCall(key)]
      ensures err == replies(history).err
    {
      history := history + [ForgetCall(key)];
      err := replies(history).err;
    }
  }
}
