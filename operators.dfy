/** The per-operator classifier: which kinds of reuse a single SQL operator allows, from its
    two intrinsic flags, the flatten carve-out and the whitelist of wall-clock functions. */
module Operators {
  import opened Verdicts

  /** A SQL operator as the operator catalog describes it. `isFlatten` stands for the
      operator being the flatten operator (an `instanceof SqlFlattenOperator` test in the
      detector). */
  datatype Op = Op(name: string, isDynamic: bool, isDeterministic: bool, isFlatten: bool)

  predicate IsAsciiLower(c: char) {
    'a' <= c <= 'z'
  }

  /** Upper-cases one ASCII letter and leaves every other character alone. */
  function UpperChar(c: char): (u: char)
    ensures !IsAsciiLower(u)
    ensures IsAsciiLower(c) ==> u as int == c as int - 32
    ensures !IsAsciiLower(c) ==> u == c
  {
    if IsAsciiLower(c) then (c as int - 32) as char else c
  }

  /** Two characters are the same letter up to ASCII case. */
  predicate SameIgnoringCase(c: char, d: char) {
    || c == d
    || (IsAsciiLower(c) && d as int == c as int - 32)
    || (IsAsciiLower(d) && c as int == d as int - 32)
  }

  /** Two strings are equal up to ASCII case. */
  predicate EqualsIgnoringCase(a: string, b: string) {
    |a| == |b| && forall i :: 0 <= i < |a| ==> SameIgnoringCase(a[i], b[i])
  }

  predicate IsUpperCase(s: string) {
    forall i :: 0 <= i < |s| ==> !IsAsciiLower(s[i])
  }

  /** ASCII upper-casing of a name. */
  function Upper(s: string): (r: string)
    ensures IsUpperCase(r)
    ensures EqualsIgnoringCase(s, r)
  {
    seq(|s|, i requires 0 <= i < |s| => UpperChar(s[i]))
  }

  /** The names of the time functions whose staleness a reflection may tolerate, as the
      operators' names. */
  const WhitelistOperators: seq<string> := [
    "CURRENT_TIME", "CURRENT_DATE", "CURRENT_TIMESTAMP", "LOCALTIME", "LOCALTIMESTAMP",
    "NOW", "STATEMENT_TIMESTAMP", "TRANSACTION_TIMESTAMP", "CURRENT_TIME_UTC",
    "CURRENT_DATE_UTC", "CURRENT_TIMESTAMP_UTC", "TIMEOFDAY", "UNIX_TIMESTAMP"]

  /** The whitelist as it is stored: every operator name, upper-cased. */
  const WhitelistNames: set<string> := set n | n in WhitelistOperators :: Upper(n)

  predicate IsWhitelisted(name: string) {
    Upper(name) in WhitelistNames
  }

  /** The verdict for one operator alone, not its operands. */
  function DetectOp(op: Op): (r: Verdict)
    // The flatten operator is always fully permissive, whatever its flags say.
    ensures op.isFlatten ==> r == Permissive()
    // An operator that depends on neither context nor chance allows every kind of reuse.
    ensures !op.isFlatten && !op.isDynamic && op.isDeterministic ==> r == Permissive()
    // A non-deterministic operator that is not dynamic loses only plan caching.
    ensures !op.isFlatten && !op.isDynamic && !op.isDeterministic ==> r == Verdict(false, true, true)
    // A dynamic operator is never plan-cacheable nor incrementally refreshable, and stays
    // matchable exactly when its name is whitelisted.
    ensures !op.isFlatten && op.isDynamic ==>
      !r.planCacheable && !r.reflectionIncrementalRefreshable &&
      (r.reflectionMatchable <==> IsWhitelisted(op.name))
    ensures Chained(r)
  {
    if op.isFlatten then
      Permissive()
    else
      var planCacheable := !(op.isDynamic || !op.isDeterministic);
      var reflectionIncrementalRefreshable := !op.isDynamic;
      var reflectionMatchable := !(op.isDynamic && !IsWhitelisted(op.name));
      Verdict(planCacheable, reflectionMatchable, reflectionIncrementalRefreshable)
  }

  /** Upper-casing identifies exactly the strings that are equal up to ASCII case. */
  lemma UpperEqual(a: string, b: string)
    ensures Upper(a) == Upper(b) <==> EqualsIgnoringCase(a, b)
  {
  }

  /** The whitelist is stored upper-cased, so looking a name up after upper-casing it is a
      case-insensitive match against the operator names. */
  lemma {:induction false} WhitelistIsCaseInsensitive(name: string)
    ensures IsWhitelisted(name) <==> exists n :: n in WhitelistOperators && EqualsIgnoringCase(name, n)
  {
    if IsWhitelisted(name) {
      var n :| n in WhitelistOperators && Upper(n) == Upper(name);
      UpperEqual(name, n);
    }
    if exists n :: n in WhitelistOperators && EqualsIgnoringCase(name, n) {
      var n :| n in WhitelistOperators && EqualsIgnoringCase(name, n);
      UpperEqual(name, n);
    }
  }

  /** Every stored whitelist entry is already upper-case: upper-casing it again changes
      nothing. */
  lemma WhitelistIsStoredUpperCased(w: string)
    requires w in WhitelistNames
    ensures Upper(w) == w
  {
  }
}
