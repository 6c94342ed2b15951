/** Shared vocabulary of the model: identifiers, optional values, handler replies,
    errors raised by the record store, and the string trimming the schemas apply. */
module Common {

  /** A record reference (a Mongo ObjectId). References are never empty, so a
      present reference is always truthy in the source's `if (x)` tests. */
  type Id = s: string | s != "" witness "0"

  /** A timestamp (`new Date()`), supplied to every operation as a parameter. */
  type Time = int

  datatype Option<T> = None | Some(value: T)

  /** The HTTP status codes the handlers answer with. */
  const OK: int := 200
  const CREATED: int := 201
  const BAD_REQUEST: int := 400
  const NOT_FOUND: int := 404
  const CONFLICT: int := 409
  const SERVER_ERROR: int := 500

  /** What a handler sends back: a status code with a JSON value or a message. */
  datatype Reply<T> = Ok(code: int, value: T) | Fail(code: int, message: string)

  /** An early answer of a handler's validation chain: a status code and a message. */
  datatype Rejection = Rejection(code: int, message: string)

  /** Why the record store refused or aborted a call: a schema or hook
      rejection, the unique index on a field (Mongo error 11000), or an
      exception thrown by the data-access code itself. */
  datatype DbError = Invalid(message: string) | DuplicateKey | Thrown(message: string)

  datatype Result<T> = Success(value: T) | Failure(error: DbError)

  /** JavaScript truthiness of an optional string body field: absent, null and "" are falsy. */
  predicate Truthy(o: Option<string>) {
    o.Some? && o.value != ""
  }

  /** The characters `String.prototype.trim` removes (white space and line terminators). */
  predicate IsSpace(c: char) {
    c == ' ' || c == '\t' || c == '\n' || c == '\r' || c == '\U{000B}' || c == '\U{000C}'
    || c == '\U{00A0}' || c == '\U{1680}' || ('\U{2000}' <= c <= '\U{200A}')
    || c == '\U{2028}' || c == '\U{2029}' || c == '\U{202F}' || c == '\U{205F}'
    || c == '\U{3000}' || c == '\U{FEFF}'
  }

  /** Number of white-space characters at the start of `s`. */
  function LeadingSpaces(s: string): (n: nat)
    ensures n <= |s|
    ensures forall k | 0 <= k < n :: IsSpace(s[k])
    ensures n < |s| ==> !IsSpace(s[n])
  {
    if s == [] || !IsSpace(s[0]) then 0 else 1 + LeadingSpaces(s[1..])
  }

  /** Number of white-space characters at the end of `s`. */
  function TrailingSpaces(s: string): (n: nat)
    ensures n <= |s|
    ensures forall k | |s| - n <= k < |s| :: IsSpace(s[k])
    ensures n < |s| ==> !IsSpace(s[|s| - 1 - n])
  {
    if s == [] || !IsSpace(s[|s| - 1]) then 0 else 1 + TrailingSpaces(s[..|s| - 1])
  }

  /** `s` neither starts nor ends with white space. */
  predicate Trimmed(s: string) {
    s == [] || (!IsSpace(s[0]) && !IsSpace(s[|s| - 1]))
  }

  /** The schema option `trim: true`: the stored string has no white space at either end. */
  function Trim(s: string): (r: string)
    ensures |r| <= |s|
    ensures Trimmed(r)
    ensures (forall k | 0 <= k < |s| :: IsSpace(s[k])) ==> r == []
    ensures Trimmed(s) ==> r == s
    ensures LeadingSpaces(s) + |r| <= |s| && r == s[LeadingSpaces(s)..LeadingSpaces(s) + |r|]
    ensures forall k | LeadingSpaces(s) + |r| <= k < |s| :: IsSpace(s[k])
  {
    var n := LeadingSpaces(s);
    var m := TrailingSpaces(s[n..]);
    TrimCut(s, n, m);
    s[n..|s| - m]
  }

  /** The cut `Trim` makes: `n` spaces off the front, then `m` off the back of
      what is left, leaving a trimmed middle and a white-space tail. */
  lemma TrimCut(s: string, n: nat, m: nat)
    requires n == LeadingSpaces(s) && m == TrailingSpaces(s[n..])
    ensures n + m <= |s|
    ensures Trimmed(s[n..|s| - m])
    ensures forall k | |s| - m <= k < |s| :: IsSpace(s[k])
    ensures (forall k | 0 <= k < |s| :: IsSpace(s[k])) ==> n + m == |s|
    ensures Trimmed(s) ==> n == 0 && m == 0
  {
    TrimCutTail(s, n, m);
    TrimCutMiddle(s, n, m);
    TrimCutEnds(s, n, m);
    assert Trimmed(s) && s != [] ==> n == 0;
  }

  /** What the back cut removes is white space. */
  lemma TrimCutTail(s: string, n: nat, m: nat)
    requires n <= |s| && m == TrailingSpaces(s[n..])
    ensures n + m <= |s|
    ensures forall k | |s| - m <= k < |s| :: IsSpace(s[k])
  {
    var t := s[n..];
    forall k | |s| - m <= k < |s| ensures IsSpace(s[k]) {
      assert s[k] == t[k - n];
    }
  }

  /** The middle left by the two cuts starts and ends with a non-space character. */
  lemma TrimCutMiddle(s: string, n: nat, m: nat)
    requires n <= |s| && (n < |s| ==> !IsSpace(s[n]))
    requires m == TrailingSpaces(s[n..])
    ensures n + m <= |s| && Trimmed(s[n..|s| - m])
  {
    var t := s[n..];
    if n + m < |s| {
      var r := s[n..|s| - m];
      assert r[0] == s[n];
      assert r[|r| - 1] == t[|t| - 1 - m];
    }
  }

  /** An all-space string is cut away entirely; a string ending in a non-space
      character loses nothing at the back. */
  lemma TrimCutEnds(s: string, n: nat, m: nat)
    requires n <= |s| && (n < |s| ==> !IsSpace(s[n]))
    requires m == TrailingSpaces(s[n..])
    ensures (forall k | 0 <= k < |s| :: IsSpace(s[k])) ==> n + m == |s|
    ensures n == 0 && s != [] && !IsSpace(s[|s| - 1]) ==> m == 0
  {
    var t := s[n..];
    if n == 0 && s != [] && !IsSpace(s[|s| - 1]) {
      assert t[|t| - 1] == s[|s| - 1];
    }
  }

  /** Trimming keeps exactly the middle of `s` between white-space ends: any
      cut of `s` into a white-space head, a middle that starts and ends with
      a non-space character (or is empty), and a white-space tail keeps what
      `Trim` keeps. */
  lemma TrimIsTheMiddle(s: string, i: nat, j: nat)
    requires i <= j <= |s|
    requires forall k | 0 <= k < i :: IsSpace(s[k])
    requires forall k | j <= k < |s| :: IsSpace(s[k])
    requires i < j ==> !IsSpace(s[i]) && !IsSpace(s[j - 1])
    ensures Trim(s) == s[i..j]
  {
    var r := Trim(s);
    var n := LeadingSpaces(s);
    if i == j {
      assert forall k | 0 <= k < |s| :: IsSpace(s[k]) by {
        forall k | 0 <= k < |s| ensures IsSpace(s[k]) {
          if k >= i { assert j <= k; }
        }
      }
    } else {
      assert n == i;
      assert n + |r| == j;
    }
  }

  /** Trimming twice is trimming once, so re-saving a trimmed field changes nothing. */
  lemma TrimIdempotent(s: string)
    ensures Trim(Trim(s)) == Trim(s)
  {
  }
}
