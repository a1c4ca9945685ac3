/** Shared vocabulary of the model: optional values, results, the errors the
    runtime returns, Go's uint64 and the decimal formatting that `%d` and
    `strconv.FormatUint(v, 10)` perform. */
module Common {

  /** A value that may be absent; also stands for a Go `nil` slice, map or interface. */
  datatype Option<+T> = None | Some(value: T)

  /** A value or the error a Go function returns beside its zero value. */
  datatype Result<+T> = Success(value: T) | Failure(error: Error)

  /** The errors the library and its examples return. */
  datatype Error =
    | NilAggregate                                    // "calling command on nil %s"
    | TypeMismatch(commandType: string, aggregateType: string)
    | Validation(msg: string)                         // a command's Validate error
    | BuildFailed(msg: string)                        // a command's BuildEvent error
    | SaveFailed                                      // tx.Save(aggregate) error
    | MarshalFailed                                   // json.Marshal error
    | UnregisteredEventType(key: string)              // "[deserialize] event type not registered: %s"
    | UnmarshalFailed                                 // json.Unmarshal error
    | CreateFailed                                    // tx.Create(&eventStore) error
    | Reactor(msg: string)                            // a synchronous reactor's error
    | CommitFailed                                    // tx.Commit() error

  /** Timestamps are kept abstract: an instant is an integer. */
  type Time = int

  const U64_LIMIT: int := 0x1_0000_0000_0000_0000

  /** Go's `uint64`. */
  type u64 = x: int | 0 <= x < U64_LIMIT

  /** Go's `v++` / `v += 1` on a `uint64`: wraps from 2^64-1 to 0. */
  function Inc(v: u64): (r: u64)
    ensures r == (v + 1) % U64_LIMIT
    ensures v < U64_LIMIT - 1 ==> r == v + 1
  {
    if v == U64_LIMIT - 1 then 0 else v + 1
  }

  /** Raw bytes, as held by a `json.RawMessage`. */
  type Bytes = seq<bv8>

  /** A generic JSON value: what `json.Unmarshal` produces into an `interface{}`. */
  datatype Json =
    | JNull
    | JBool(b: bool)
    | JNumber(n: int)
    | JString(s: string)
    | JArray(items: seq<Json>)
    | JObject(fields: seq<(string, Json)>)

  /** `goes.Metadata`, a `map[string]interface{}`. */
  type Metadata = map<string, Json>

  function Digit(d: nat): (c: char)
    requires d < 10
    ensures '0' <= c <= '9'
  {
    "0123456789"[d]
  }

  /** Decimal rendering of a natural number, as `%d` and `strconv.FormatUint(v, 10)` print it. */
  function NatToString(n: nat): (s: string)
    ensures |s| >= 1
    ensures forall i :: 0 <= i < |s| ==> '0' <= s[i] <= '9'
    ensures n < 10 <==> |s| == 1
    decreases n
  {
    if n < 10 then [Digit(n)] else NatToString(n / 10) + [Digit(n % 10)]
  }

  lemma DigitInjective(a: nat, b: nat)
    requires a < 10 && b < 10 && Digit(a) == Digit(b)
    ensures a == b
  {
  }

  /** Distinct numbers print differently: decimal rendering is injective. */
  lemma {:induction false} NatToStringInjective(a: nat, b: nat)
    requires NatToString(a) == NatToString(b)
    ensures a == b
    decreases a
  {
    var s := NatToString(a);
    if a < 10 {
      assert |NatToString(b)| == 1;
      DigitInjective(a, b);
    } else {
      assert b >= 10;
      var sa, sb := NatToString(a / 10), NatToString(b / 10);
      assert s == sa + [Digit(a % 10)];
      assert s == sb + [Digit(b % 10)];
      assert s[|s| - 1] == Digit(a % 10) == Digit(b % 10);
      DigitInjective(a % 10, b % 10);
      assert sa == s[..|s| - 1] == sb;
      NatToStringInjective(a / 10, b / 10);
    }
  }

  /** A rendered number contains no '.'. */
  lemma NatToStringHasNoDot(n: nat)
    ensures '.' !in NatToString(n)
  {
  }

  /** A prefix of a prefix is a prefix. */
  lemma PrefixOfPrefix<T>(s: seq<T>, n: nat, m: nat)
    requires m <= n <= |s|
    ensures s[..n][..m] == s[..m]
  {
  }

  /** A prefix of `a` is a prefix of `a + b`, and is `a` itself when it is as long. */
  lemma PrefixOfConcat<T>(t: seq<T>, a: seq<T>, b: seq<T>)
    requires t <= a
    ensures t <= a + b
    ensures |t| == |a| ==> t == a
  {
    assert forall i | 0 <= i < |t| :: (a + b)[i] == a[i];
  }
}
