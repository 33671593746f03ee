/** Shared vocabulary: Go's (value, error) returns, the error kinds the services
    tell apart, and the few Go string functions the services rely on. */
module Base {

  /** A flat Kubernetes ConfigMap or Secret payload (Go `map[string]string`). */
  type Record = map<string, string>

  datatype Option<+T> = None | Some(value: T) {
    function GetOr(default: T): T {
      match this
      case Some(v) => v
      case None => default
    }
  }

  /** The calls to the orchestrator and to the database that can fail for
      reasons other than NotFound or Conflict. */
  datatype Api =
    | ConfigMapGet | ConfigMapList | ConfigMapCreate | ConfigMapUpdate | ConfigMapDelete
    | SecretGet | SecretCreate | SecretUpdate | SecretDelete
    | TableRead(table: string) | TableWrite(table: string)

  /** Errors as the services distinguish them (`errors.IsNotFound` and the text). */
  datatype Error =
    | NotFound(name: string)                 // the API object does not exist
    | Conflict(name: string)                 // the API object already exists
    | Unavailable(call: Api)                 // any other API or database failure
    | Failed(msg: string)                    // errors.New / fmt.Errorf raised by the services
    | Wrapped(context: string, cause: Error) // fmt.Errorf("context: %w", cause)
    | Rejected(reason: string)               // a foreign validator or parser said no
    | Panic(reason: string)                  // a Go run-time panic

  datatype Result<+T> = Ok(value: T) | Err(error: Error) {
    predicate IsFailure() { Err? }
    function PropagateFailure<U>(): Result<U> requires Err? { Err(error) }
    function Extract(): T requires Ok? { value }
  }

  /** Go's `m[k]` on a `map[string]string`: "" when the key is absent. */
  function Get(m: Record, k: string): string {
    if k in m then m[k] else ""
  }

  /** `k8s.io/apimachinery/pkg/api/errors.IsNotFound`. */
  predicate IsNotFound(e: Error) {
    e.NotFound?
  }

  // ---------------------------------------------------------------------
  // Substring search (strings.Index, strings.Replace(s, old, new, 1),
  // strings.Contains, strings.HasSuffix)
  // ---------------------------------------------------------------------

  predicate OccursAt(s: string, pat: string, i: nat) {
    i + |pat| <= |s| && s[i..i + |pat|] == pat
  }

  function IndexFrom(s: string, pat: string, i: nat): (r: Option<nat>)
    requires i <= |s|
    ensures r.Some? ==> i <= r.value && OccursAt(s, pat, r.value)
    ensures r.Some? ==> forall j :: i <= j < r.value ==> !OccursAt(s, pat, j)
    ensures r.None? ==> forall j :: i <= j ==> !OccursAt(s, pat, j)
    decreases |s| - i
  {
    if OccursAt(s, pat, i) then Some(i)
    else if i == |s| then None
    else IndexFrom(s, pat, i + 1)
  }

  /** `strings.Index`: the first position where `pat` occurs in `s`. */
  function IndexOf(s: string, pat: string): (r: Option<nat>)
    ensures r.Some? ==> OccursAt(s, pat, r.value)
    ensures r.Some? ==> forall j :: 0 <= j < r.value ==> !OccursAt(s, pat, j)
    ensures r.None? ==> forall j :: 0 <= j ==> !OccursAt(s, pat, j)
  {
    IndexFrom(s, pat, 0)
  }

  /** `strings.Contains`. */
  predicate Contains(s: string, pat: string) {
    IndexOf(s, pat).Some?
  }

  /** `strings.HasSuffix`. */
  predicate HasSuffix(s: string, suffix: string) {
    |suffix| <= |s| && s[|s| - |suffix|..] == suffix
  }

  /** `strings.Replace(s, old, new, 1)`: only the first occurrence is replaced. */
  function ReplaceFirst(s: string, pat: string, rep: string): string {
    match IndexOf(s, pat)
    case None => s
    case Some(i) => s[..i] + rep + s[i + |pat|..]
  }

  /** `bytes.ReplaceAll(s, []byte{a}, []byte{b})` for one-character patterns. */
  function ReplaceChar(s: string, a: char, b: char): (r: string)
    ensures |r| == |s|
    ensures forall i :: 0 <= i < |s| ==> r[i] == (if s[i] == a then b else s[i])
  {
    if s == [] then []
    else [if s[0] == a then b else s[0]] + ReplaceChar(s[1..], a, b)
  }

  // ---------------------------------------------------------------------
  // strings.Split with a one-character separator, and its inverse Join
  // ---------------------------------------------------------------------

  /** `strings.Split(s, string(sep))`: never empty; the parts between separators. */
  function Split(s: string, sep: char): (parts: seq<string>)
    ensures |parts| > 0
  {
    if s == [] then [[]]
    else
      var rest := Split(s[1..], sep);
      if s[0] == sep then [[]] + rest
      else [[s[0]] + rest[0]] + rest[1..]
  }

  /** `strings.Join(parts, string(sep))`. */
  function Join(parts: seq<string>, sep: char): string
    requires |parts| > 0
  {
    if |parts| == 1 then parts[0] else parts[0] + [sep] + Join(parts[1..], sep)
  }

  function Count(s: string, c: char): nat {
    if s == [] then 0 else (if s[0] == c then 1 else 0) + Count(s[1..], c)
  }

  /** Splitting and joining again gives back the text. */
  lemma {:induction false} JoinSplit(s: string, sep: char)
    ensures Join(Split(s, sep), sep) == s
  {
    if s != [] {
      JoinSplit(s[1..], sep);
      var rest := Split(s[1..], sep);
      if s[0] != sep {
        if |rest| > 1 {
          assert Join(rest, sep) == rest[0] + [sep] + Join(rest[1..], sep);
          assert [s[0]] + rest[0] + [sep] + Join(rest[1..], sep) == s;
        } else {
          assert [s[0]] + rest[0] == s;
        }
      } else {
        assert [sep] + Join(rest, sep) == s;
      }
    }
  }

  /** No part contains the separator, and there is one part more than separators. */
  lemma {:induction false} SplitParts(s: string, sep: char)
    ensures |Split(s, sep)| == Count(s, sep) + 1
    ensures forall k :: 0 <= k < |Split(s, sep)| ==> sep !in Split(s, sep)[k]
  {
    if s != [] {
      SplitParts(s[1..], sep);
      var rest := Split(s[1..], sep);
      if s[0] != sep {
        var parts := Split(s, sep);
        assert parts[0] == [s[0]] + rest[0];
        forall k | 0 <= k < |parts| ensures sep !in parts[k] {
          if k > 0 { assert parts[k] == rest[k]; }
        }
      }
    }
  }

  /** `strconv.ParseBool`: None is the syntax error. */
  function ParseBool(s: string): (r: Option<bool>)
    ensures r == Some(true) <==> s in {"1", "t", "T", "TRUE", "true", "True"}
    ensures r == Some(false) <==> s in {"0", "f", "F", "FALSE", "false", "False"}
  {
    if s in {"1", "t", "T", "TRUE", "true", "True"} then Some(true)
    else if s in {"0", "f", "F", "FALSE", "false", "False"} then Some(false)
    else None
  }

  /** `strconv.FormatBool`. */
  function FormatBool(b: bool): string {
    if b then "true" else "false"
  }

  /** Formatting then parsing a boolean gives it back. */
  lemma ParseFormatBool(b: bool)
    ensures ParseBool(FormatBool(b)) == Some(b)
  {
  }

  // ---------------------------------------------------------------------
  // Go's fixed-width integers
  // ---------------------------------------------------------------------

  const Int32Min: int := -0x8000_0000
  const Int32Max: int := 0x7fff_ffff

  /** `int32(x)`: Go's conversion keeps the low 32 bits (two's complement). */
  function Int32(x: int): (r: int)
    ensures Int32Min <= r <= Int32Max
    ensures (r - x) % 0x1_0000_0000 == 0
    ensures Int32Min <= x <= Int32Max ==> r == x
  {
    (x - Int32Min) % 0x1_0000_0000 + Int32Min
  }

  // ---------------------------------------------------------------------
  // A loop that appends per-element results and stops at the first error
  // (the shape of the List-per-selector loops and the log loops)
  // ---------------------------------------------------------------------

  /** `f` applied to each element in order, results concatenated; the first error wins. */
  function Collect<A, T>(xs: seq<A>, f: A -> Result<seq<T>>): Result<seq<T>>
  {
    if xs == [] then Ok([])
    else
      match Collect(xs[..|xs| - 1], f)
      case Err(e) => Err(e)
      case Ok(acc) =>
        match f(xs[|xs| - 1])
        case Err(e) => Err(e)
        case Ok(items) => Ok(acc + items)
  }

  function Flatten<T>(parts: seq<seq<T>>): seq<T> {
    if parts == [] then [] else Flatten(parts[..|parts| - 1]) + parts[|parts| - 1]
  }

  /** The successful results of `f` on each element, in order (an error counts as nothing). */
  function Results<A, T>(xs: seq<A>, f: A -> Result<seq<T>>): (parts: seq<seq<T>>)
    ensures |parts| == |xs|
    ensures forall i :: 0 <= i < |xs| ==> parts[i] == (if f(xs[i]).Ok? then f(xs[i]).value else [])
  {
    if xs == [] then []
    else
      var n := |xs| - 1;
      var init := Results(xs[..n], f);
      assert forall i :: 0 <= i < n ==> xs[..n][i] == xs[i];
      init + [if f(xs[n]).Ok? then f(xs[n]).value else []]
  }

  /** Collecting succeeds iff every call does, and then it is their results
      concatenated in order, duplicates kept. */
  lemma {:induction false} CollectOk<A, T>(xs: seq<A>, f: A -> Result<seq<T>>)
    ensures Collect(xs, f).Ok? <==> forall i :: 0 <= i < |xs| ==> f(xs[i]).Ok?
    ensures Collect(xs, f).Ok? ==> Collect(xs, f).value == Flatten(Results(xs, f))
  {
    if xs != [] {
      var n := |xs| - 1;
      var init := xs[..n];
      CollectOk(init, f);
      assert forall i :: 0 <= i < n ==> init[i] == xs[i];
      if Collect(xs, f).Ok? {
        assert Results(xs, f)[..n] == Results(init, f);
      }
    }
  }

  /** A failed collection reports the error of the first call that failed. */
  lemma {:induction false} CollectFirstError<A, T>(xs: seq<A>, f: A -> Result<seq<T>>)
    requires Collect(xs, f).Err?
    ensures exists i :: (0 <= i < |xs| && f(xs[i]) == Err(Collect(xs, f).error) &&
                         forall j :: 0 <= j < i ==> f(xs[j]).Ok?)
  {
    var n := |xs| - 1;
    var init := xs[..n];
    if Collect(init, f).Err? {
      CollectFirstError(init, f);
      var i :| 0 <= i < n && f(init[i]) == Err(Collect(init, f).error) &&
               forall j :: 0 <= j < i ==> f(init[j]).Ok?;
      assert init[i] == xs[i];
      assert forall j :: 0 <= j < i ==> init[j] == xs[j];
    } else {
      CollectOk(init, f);
      assert forall j :: 0 <= j < n ==> init[j] == xs[j];
    }
  }

  /** Once a prefix fails, the whole collection fails with that error. */
  lemma {:induction false} CollectPrefixErr<A, T>(xs: seq<A>, i: nat, f: A -> Result<seq<T>>)
    requires i <= |xs| && Collect(xs[..i], f).Err?
    ensures Collect(xs, f) == Collect(xs[..i], f)
    decreases |xs| - i
  {
    if i < |xs| {
      assert xs[..i + 1][..i] == xs[..i];
      CollectPrefixErr(xs, i + 1, f);
    } else {
      assert xs[..i] == xs;
    }
  }

  /** The loop itself: returns on the first error, appends otherwise. */
  method CollectEach<A, T>(xs: seq<A>, f: A -> Result<seq<T>>) returns (r: Result<seq<T>>)
    ensures r == Collect(xs, f)
  {
    var acc: seq<T> := [];
    for i := 0 to |xs|
      invariant Collect(xs[..i], f) == Ok(acc)
    {
      var step := f(xs[i]);
      assert xs[..i + 1][..i] == xs[..i];
      if step.Err? {
        CollectPrefixErr(xs, i + 1, f);
        return Err(step.error);
      }
      acc := acc + step.value;
    }
    assert xs[..|xs|] == xs;
    r := Ok(acc);
  }
}
