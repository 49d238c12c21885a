/** Identifiers, handler outcomes, roles, and the sequence and string
    operations that the route handlers of the marketplace backend rely on. */
module Common {

  /** A MongoDB ObjectId. All collections draw their ids from one space. */
  type ObjectId = nat

  datatype Option<+T> = None | Some(value: T)

  /** The error statuses the route handlers answer with. */
  datatype HttpError = BadRequest | Unauthorized | Forbidden | NotFound | ServerError
  {
    function Code(): int {
      match this
      case BadRequest => 400
      case Unauthorized => 401
      case Forbidden => 403
      case NotFound => 404
      case ServerError => 500
    }
  }

  /** What a handler answers: a payload, or an error status. */
  datatype Outcome<+T> = Ok(value: T) | Fail(error: HttpError)

  /** The account roles; `role` is stored as one of these upper-case names. */
  datatype Role = Worker | Customer | Business | Admin

  function RoleName(r: Role): string {
    match r
    case Worker => "WORKER"
    case Customer => "CUSTOMER"
    case Business => "BUSINESS"
    case Admin => "ADMIN"
  }

  /** The role named by a request field, if it is one of the four names. */
  function ParseRole(s: string): (r: Option<Role>)
    ensures r.Some? <==> s == "WORKER" || s == "CUSTOMER" || s == "BUSINESS" || s == "ADMIN"
    ensures r.Some? ==> RoleName(r.value) == s
  {
    if s == "WORKER" then Some(Worker)
    else if s == "CUSTOMER" then Some(Customer)
    else if s == "BUSINESS" then Some(Business)
    else if s == "ADMIN" then Some(Admin)
    else None
  }

  /** A request field or query parameter that is present and not empty,
      which is what a JavaScript truthiness test on a string accepts. */
  predicate Given(s: Option<string>) {
    s.Some? && s.value != ""
  }

  /** The authenticated user that authMiddleware attaches to a request. */
  datatype Principal = Principal(id: ObjectId, role: Role)

  /** The listing kinds shared by service requests and worker profiles. */
  datatype ListingType = OnDemand | Project | JobListing

  function ListingTypeName(t: ListingType): string {
    match t
    case OnDemand => "on-demand"
    case Project => "project"
    case JobListing => "job"
  }

  function ParseListingType(s: string): (r: Option<ListingType>)
    ensures r.Some? <==> s == "on-demand" || s == "project" || s == "job"
    ensures r.Some? ==> ListingTypeName(r.value) == s
  {
    if s == "on-demand" then Some(OnDemand)
    else if s == "project" then Some(Project)
    else if s == "job" then Some(JobListing)
    else None
  }

  // ---------------------------------------------------------------------
  // Sequences: the collection scans (find, filter, count, reduce)
  // ---------------------------------------------------------------------

  /** The elements of `s` that satisfy `p`, in their original order. */
  function Filter<T(!new)>(s: seq<T>, p: T -> bool): (r: seq<T>)
    ensures |r| <= |s|
    ensures forall x :: x in r <==> x in s && p(x)
  {
    if s == [] then []
    else (if p(s[0]) then [s[0]] else []) + Filter(s[1..], p)
  }

  lemma {:induction false} FilterAppend<T(!new)>(a: seq<T>, b: seq<T>, p: T -> bool)
    ensures Filter(a + b, p) == Filter(a, p) + Filter(b, p)
  {
    if a == [] {
      assert a + b == b;
    } else {
      assert (a + b)[1..] == a[1..] + b;
      FilterAppend(a[1..], b, p);
    }
  }

  /** The number of elements of `s` that satisfy `p`. */
  function Count<T(!new)>(s: seq<T>, p: T -> bool): nat {
    |Filter(s, p)|
  }

  /** The sum of `f` over `s` (JavaScript's `reduce((sum, x) => sum + f(x), 0)`). */
  function Sum<T>(s: seq<T>, f: T -> real): real {
    if s == [] then 0.0 else f(s[0]) + Sum(s[1..], f)
  }

  lemma {:induction false} SumAppend<T>(a: seq<T>, b: seq<T>, f: T -> real)
    ensures Sum(a + b, f) == Sum(a, f) + Sum(b, f)
  {
    if a == [] {
      assert a + b == b;
    } else {
      assert (a + b)[1..] == a[1..] + b;
      SumAppend(a[1..], b, f);
    }
  }

  /** Sums of values in [lo, hi] lie in [lo * n, hi * n]. */
  lemma {:induction false} SumBounds<T(!new)>(s: seq<T>, f: T -> real, lo: real, hi: real)
    requires forall x :: x in s ==> lo <= f(x) <= hi
    ensures lo * |s| as real <= Sum(s, f) <= hi * |s| as real
  {
    if s != [] {
      SumBounds(s[1..], f, lo, hi);
      assert f(s[0]) + Sum(s[1..], f) == Sum(s, f);
      assert lo * |s| as real == lo + lo * |s[1..]| as real;
      assert hi * |s| as real == hi + hi * |s[1..]| as real;
    }
  }

  /** The index of the first element of `s` that satisfies `p` (MongoDB's
      `findOne` in natural order, JavaScript's `Array.prototype.find`). */
  function FindIndex<T(!new)>(s: seq<T>, p: T -> bool): (r: Option<nat>)
    ensures r.Some? ==> r.value < |s| && p(s[r.value])
    ensures r.Some? ==> forall j :: 0 <= j < r.value ==> !p(s[j])
    ensures r.None? <==> forall x :: x in s ==> !p(x)
  {
    if s == [] then None
    else if p(s[0]) then Some(0)
    else match FindIndex(s[1..], p)
      case None => None
      case Some(i) => Some(i + 1)
  }

  /** `s` without its `i`-th element, the others in order. */
  function RemoveAt<T>(s: seq<T>, i: nat): (r: seq<T>)
    requires i < |s|
    ensures |r| == |s| - 1
    ensures forall j :: 0 <= j < i ==> r[j] == s[j]
    ensures forall j :: i <= j < |r| ==> r[j] == s[j + 1]
  {
    s[..i] + s[i + 1..]
  }

  /** The first `n` elements, or all of them when there are fewer
      (MongoDB's `limit(n)` for n > 0). */
  function Take<T>(s: seq<T>, n: nat): (r: seq<T>)
    ensures |r| == if |s| < n then |s| else n
    ensures r == s[..|r|]
  {
    if |s| <= n then s else s[..n]
  }

  // ---------------------------------------------------------------------
  // Strings
  // ---------------------------------------------------------------------

  /** The characters JavaScript's `String.prototype.trim` removes: the
      ECMAScript WhiteSpace and LineTerminator code points. */
  predicate IsSpace(c: char) {
    || c == ' ' || c == '\t' || c == '\n' || c == '\r'
    || c == '\U{000B}' || c == '\U{000C}' || c == '\U{00A0}' || c == '\U{1680}'
    || ('\U{2000}' <= c <= '\U{200A}')
    || c == '\U{2028}' || c == '\U{2029}' || c == '\U{202F}' || c == '\U{205F}'
    || c == '\U{3000}' || c == '\U{FEFF}'
  }

  predicate Blank(s: string) {
    forall i :: 0 <= i < |s| ==> IsSpace(s[i])
  }

  /** JavaScript's `trim()`: the string without leading and trailing
      white space. */
  function Trim(s: string): string {
    if s != [] && IsSpace(s[0]) then Trim(s[1..])
    else if s != [] && IsSpace(s[|s| - 1]) then Trim(s[..|s| - 1])
    else s
  }

  /** Trimming leaves nothing exactly when the string is all white space,
      and otherwise leaves a string that starts and ends with a character
      that is not white space. */
  lemma {:induction false} TrimShape(s: string)
    ensures |Trim(s)| <= |s|
    ensures Trim(s) == [] <==> Blank(s)
    ensures Trim(s) != [] ==> !IsSpace(Trim(s)[0]) && !IsSpace(Trim(s)[|Trim(s)| - 1])
  {
    if s != [] && IsSpace(s[0]) {
      var tail := s[1..];
      TrimShape(tail);
      if Blank(tail) {
        forall i | 0 <= i < |s| ensures IsSpace(s[i]) {
          if i > 0 {
            assert s[i] == tail[i - 1];
          }
        }
      }
    } else if s != [] && IsSpace(s[|s| - 1]) {
      var init := s[..|s| - 1];
      TrimShape(init);
      if |s| > 1 {
        assert init[0] == s[0];
      }
    } else if s != [] {
      assert !IsSpace(s[0]);
    }
  }

  lemma BlankConcat(a: string, b: string)
    requires Blank(a) && Blank(b)
    ensures Blank(a + b)
  {
    forall k | 0 <= k < |a + b| ensures IsSpace((a + b)[k]) {
      if k >= |a| {
        assert (a + b)[k] == b[k - |a|];
      }
    }
  }

  /** `s[..i]` and `s[j..]` are white space only. */
  predicate PaddedAt(s: string, i: nat, j: nat) {
    i <= j <= |s| && Blank(s[..i]) && Blank(s[j..])
  }

  /** Trimming keeps the stretch of `s` between a white-space prefix and a
      white-space suffix: it removes white space and nothing else. */
  lemma {:induction false} TrimIsInfix(s: string)
    ensures exists i: nat, j: nat :: PaddedAt(s, i, j) && Trim(s) == s[i..j]
  {
    if s != [] && IsSpace(s[0]) {
      var tail := s[1..];
      TrimIsInfix(tail);
      var i: nat, j: nat :| PaddedAt(tail, i, j) && Trim(tail) == tail[i..j];
      assert tail[i..j] == s[i + 1..j + 1];
      assert s[j + 1..] == tail[j..];
      assert s[..i + 1] == [s[0]] + tail[..i];
      BlankConcat([s[0]], tail[..i]);
      assert PaddedAt(s, i + 1, j + 1);
    } else if s != [] && IsSpace(s[|s| - 1]) {
      var init := s[..|s| - 1];
      TrimIsInfix(init);
      var i: nat, j: nat :| PaddedAt(init, i, j) && Trim(init) == init[i..j];
      assert init[i..j] == s[i..j];
      assert init[..i] == s[..i];
      assert s[j..] == init[j..] + [s[|s| - 1]];
      BlankConcat(init[j..], [s[|s| - 1]]);
      assert PaddedAt(s, i, j);
    } else {
      assert s[..0] == [] && s[|s|..] == [];
      assert PaddedAt(s, 0, |s|) && Trim(s) == s[0..|s|];
    }
  }

  predicate OccursAt(s: string, pat: string, k: nat) {
    k + |pat| <= |s| && s[k..k + |pat|] == pat
  }

  /** The first position at or after `from` where `pat` occurs in `s`. */
  function IndexOfFrom(s: string, pat: string, from: nat): (r: Option<nat>)
    decreases |s| - from
    ensures r.Some? ==> from <= r.value && OccursAt(s, pat, r.value)
    ensures r.Some? ==> forall k :: from <= k < r.value ==> !OccursAt(s, pat, k)
    ensures r.None? ==> forall k :: from <= k ==> !OccursAt(s, pat, k)
  {
    if from + |pat| > |s| then None
    else if s[from..from + |pat|] == pat then Some(from)
    else IndexOfFrom(s, pat, from + 1)
  }

  /** JavaScript's `s.replace(pat, rep)` with a string pattern: only the
      first occurrence is replaced. */
  function ReplaceFirst(s: string, pat: string, rep: string): string {
    match IndexOfFrom(s, pat, 0)
    case None => s
    case Some(i) => s[..i] + rep + s[i + |pat|..]
  }

  /** Stripping a leading pattern takes exactly that prefix away. */
  lemma ReplaceLeading(pat: string, t: string)
    ensures ReplaceFirst(pat + t, pat, "") == t
  {
    assert OccursAt(pat + t, pat, 0) by { assert (pat + t)[0..|pat|] == pat; }
    assert (pat + t)[|pat|..] == t;
  }
}
