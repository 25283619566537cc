/**
 * The random model and constant generators of Quiz-Monadic-Truth/quiz_generator.js
 * (`generateRandomModel`, `generateConstants`), with the random choices passed in.
 */
module ModelGenerator {
  import opened Wrappers
  import opened ProblemBank

  /** The name pool; a domain of size n is its first n names. */
  const AVAILABLE_NAMES: seq<string> := ["alice", "bob", "charlie", "daisy", "eddy"]
  /** The predicate letters of generated models. */
  const AVAILABLE_PREDICATES: seq<string> := ["P", "Q", "R", "S", "T"]
  /** The constant letters; they match the letters templates use. */
  const AVAILABLE_CONSTANTS: seq<string> := ["c", "d", "e", "f", "g"]

  /** `list.slice(0, n)` for a non-negative `n`. */
  function Prefix<T>(s: seq<T>, n: nat): (r: seq<T>)
    ensures |r| == if n <= |s| then n else |s|
    ensures r == s[..|r|]
  {
    if n <= |s| then s[..n] else s
  }

  /** `AVAILABLE_PREDICATES.slice(0, n)`. */
  function PredicateLetters(n: nat): (r: seq<string>)
    ensures NoDuplicates(r)
  {
    Prefix(AVAILABLE_PREDICATES, n)
  }

  /** `AVAILABLE_CONSTANTS.slice(0, n)`. */
  function ConstantLetters(n: nat): (r: seq<string>)
    ensures NoDuplicates(r)
  {
    Prefix(AVAILABLE_CONSTANTS, n)
  }

  /** The domain of a model of the given size: `AVAILABLE_NAMES.slice(0, size)`. */
  function Domain(size: nat): (r: seq<string>)
    ensures NoDuplicates(r)
    ensures |r| == if size <= 5 then size else 5
  {
    Prefix(AVAILABLE_NAMES, size)
  }

  // ---------------------------------------------------------------------------
  // Domains and extensions
  // ---------------------------------------------------------------------------

  /**
   * The size `generateRandomModel` settles on: the one requested, or
   * `3 + sizeDraw` when none (or a falsy 0) is requested; `sizeDraw` stands
   * for `Math.floor(Math.random() * 3)`.
   */
  function DomainSize(domainSize: Option<nat>, sizeDraw: nat): nat {
    if domainSize.None? || domainSize.value == 0 then 3 + sizeDraw else domainSize.value
  }

  /**
   * The individuals of `domain` whose coin is `true` (the source's
   * `Math.random() < 0.5`), in domain order.
   */
  function Select(domain: seq<string>, coins: seq<bool>): seq<string>
    requires |coins| >= |domain|
  {
    if |domain| == 0 then []
    else Select(domain[..|domain| - 1], coins) + (if coins[|domain| - 1] then [domain[|domain| - 1]] else [])
  }

  /** Looking at one more individual appends it when its coin is `true`. */
  lemma SelectStep(domain: seq<string>, coins: seq<bool>, j: nat)
    requires j < |domain| <= |coins|
    ensures coins[j] ==> Select(domain[..j + 1], coins) == Select(domain[..j], coins) + [domain[j]]
    ensures !coins[j] ==> Select(domain[..j + 1], coins) == Select(domain[..j], coins)
  {
    assert domain[..j + 1][..j] == domain[..j];
    if !coins[j] {
      assert Select(domain[..j], coins) + [] == Select(domain[..j], coins);
    }
  }

  /** `a` is `d` with some elements left out, the rest kept in order. */
  ghost predicate IsSubsequence(a: seq<string>, d: seq<string>)
    decreases |d|
  {
    if |a| == 0 then true
    else if |d| == 0 then false
    else
      var keepLast := a[|a| - 1] == d[|d| - 1] && IsSubsequence(a[..|a| - 1], d[..|d| - 1]);
      keepLast || IsSubsequence(a, d[..|d| - 1])
  }

  lemma {:induction false} SelectIsSubsequence(domain: seq<string>, coins: seq<bool>)
    requires |coins| >= |domain|
    ensures IsSubsequence(Select(domain, coins), domain)
    decreases |domain|
  {
    if |domain| > 0 {
      var init := domain[..|domain| - 1];
      SelectIsSubsequence(init, coins);
      var r := Select(domain, coins);
      if coins[|domain| - 1] {
        assert r[..|r| - 1] == Select(init, coins);
      } else {
        assert r == Select(init, coins);
        InitSubsequence(r, domain);
      }
    }
  }

  /** A subsequence of `d` without its last element is a subsequence of `d`. */
  lemma {:induction false} InitSubsequence(a: seq<string>, d: seq<string>)
    requires |d| > 0 && IsSubsequence(a, d[..|d| - 1])
    ensures IsSubsequence(a, d)
  {
  }

  /** A subsequence of a list without duplicates has none, and all its elements are in the list. */
  lemma {:induction false} SubsequenceInherits(a: seq<string>, d: seq<string>)
    requires IsSubsequence(a, d) && NoDuplicates(d)
    ensures NoDuplicates(a)
    ensures forall x :: x in a ==> x in d
    decreases |d|
  {
    if |a| > 0 {
      var dInit := d[..|d| - 1];
      assert NoDuplicates(dInit);
      if a[|a| - 1] == d[|d| - 1] && IsSubsequence(a[..|a| - 1], dInit) {
        var aInit := a[..|a| - 1];
        SubsequenceInherits(aInit, dInit);
        assert a == aInit + [d[|d| - 1]];
        forall i, j | 0 <= i < j < |a| ensures a[i] != a[j] {
          if j == |a| - 1 {
            assert a[i] in aInit;
            assert a[i] in dInit;
          }
        }
        forall x | x in a ensures x in d {
          if x != a[|a| - 1] {
            assert x in aInit;
          }
        }
      } else {
        SubsequenceInherits(a, dInit);
      }
    }
  }

  /** `x` was selected exactly when it sits at a position of `domain` whose coin is `true`. */
  lemma {:induction false} SelectMembership(domain: seq<string>, coins: seq<bool>, x: string)
    requires |coins| >= |domain|
    ensures x in Select(domain, coins) <==> exists i :: 0 <= i < |domain| && coins[i] && domain[i] == x
    decreases |domain|
  {
    if |domain| > 0 {
      var n := |domain| - 1;
      SelectMembership(domain[..n], coins, x);
      if x in Select(domain[..n], coins) {
        var i :| 0 <= i < n && coins[i] && domain[..n][i] == x;
        assert domain[i] == x;
      }
      if exists i :: 0 <= i < |domain| && coins[i] && domain[i] == x {
        var i :| 0 <= i < |domain| && coins[i] && domain[i] == x;
        if i < n {
          assert domain[..n][i] == x;
        }
      }
    }
  }

  /** The coin rows feed every domain individual of every predicate. */
  predicate CoinsFit(domain: seq<string>, letters: seq<string>, coins: seq<seq<bool>>) {
    |coins| >= |letters| && forall p :: 0 <= p < |coins| ==> |coins[p]| >= |domain|
  }

  /** The extensions of the first `n` letters, letter `p` drawing its coins from row `p`. */
  function Extensions(domain: seq<string>, letters: seq<string>, coins: seq<seq<bool>>, n: nat)
    : (r: map<string, seq<string>>)
    requires n <= |letters| && CoinsFit(domain, letters, coins)
    requires NoDuplicates(letters)
    ensures |r.Keys| <= n
  {
    if n == 0 then map[]
    else Extensions(domain, letters, coins, n - 1)[letters[n - 1] := Select(domain, coins[n - 1])]
  }

  /** The extensions of the first `n` letters have exactly those letters as keys. */
  lemma {:induction false} ExtensionsKeys(domain: seq<string>, letters: seq<string>, coins: seq<seq<bool>>, n: nat)
    requires n <= |letters| && CoinsFit(domain, letters, coins)
    requires NoDuplicates(letters)
    ensures Extensions(domain, letters, coins, n).Keys == set p | 0 <= p < n :: letters[p]
  {
    if n > 0 {
      ExtensionsKeys(domain, letters, coins, n - 1);
      var before := set p | 0 <= p < n - 1 :: letters[p];
      var after := set p | 0 <= p < n :: letters[p];
      assert after == before + {letters[n - 1]} by {
        forall x | x in after ensures x in before + {letters[n - 1]} {
          var p :| 0 <= p < n && letters[p] == x;
          if p < n - 1 {
            assert x in before;
          }
        }
        forall x | x in before ensures x in after {
          var p :| 0 <= p < n - 1 && letters[p] == x;
          assert 0 <= p < n;
        }
      }
    }
  }

  /** Letter `p` among the first `n` holds the selection of the domain by coin row `p`. */
  lemma {:induction false} ExtensionsValues(domain: seq<string>, letters: seq<string>, coins: seq<seq<bool>>, n: nat, p: nat)
    requires n <= |letters| && CoinsFit(domain, letters, coins)
    requires NoDuplicates(letters) && p < n
    ensures letters[p] in Extensions(domain, letters, coins, n)
    ensures Extensions(domain, letters, coins, n)[letters[p]] == Select(domain, coins[p])
  {
    if p < n - 1 {
      ExtensionsValues(domain, letters, coins, n - 1, p);
      assert letters[p] != letters[n - 1];
    }
  }

  // ---------------------------------------------------------------------------
  // Models
  // ---------------------------------------------------------------------------

  /** What `generateRandomModel` needs from the random source. */
  predicate RandomnessFits(domainSize: Option<nat>, numPredicates: nat, sizeDraw: nat, coins: seq<seq<bool>>) {
    sizeDraw < 3 &&
    CoinsFit(Domain(DomainSize(domainSize, sizeDraw)), PredicateLetters(numPredicates), coins)
  }

  /** The model `generateRandomModel(domainSize, numPredicates)` returns for the given random choices. */
  function RandomModel(domainSize: Option<nat>, numPredicates: nat, sizeDraw: nat, coins: seq<seq<bool>>): Model
    requires RandomnessFits(domainSize, numPredicates, sizeDraw, coins)
  {
    var size := DomainSize(domainSize, sizeDraw);
    var letters := PredicateLetters(numPredicates);
    Model(Domain(size), size, Extensions(Domain(size), letters, coins, |letters|))
  }

  /**
   * The generated model satisfies the model invariant; its domain is the first
   * `domainSize` names (3, 4 or 5 of them when no size is requested); exactly
   * the first `numPredicates` letters get an extension, each an
   * order-preserving selection of the domain by that letter's coins.
   */
  lemma {:induction false} RandomModelShape(domainSize: Option<nat>, numPredicates: nat, sizeDraw: nat, coins: seq<seq<bool>>)
    requires RandomnessFits(domainSize, numPredicates, sizeDraw, coins)
    ensures var m := RandomModel(domainSize, numPredicates, sizeDraw, coins);
      && Valid(m)
      && m.domainSize == DomainSize(domainSize, sizeDraw)
      && m.domain == Domain(m.domainSize)
      && (domainSize.None? || domainSize == Some(0) ==> 3 <= |m.domain| == m.domainSize <= 5)
      && m.ext.Keys == (set p | 0 <= p < |PredicateLetters(numPredicates)| :: PredicateLetters(numPredicates)[p])
      && forall p :: 0 <= p < |PredicateLetters(numPredicates)| ==>
           m.ext[PredicateLetters(numPredicates)[p]] == Select(m.domain, coins[p]) &&
           IsSubsequence(m.ext[PredicateLetters(numPredicates)[p]], m.domain) &&
           NoDuplicates(m.ext[PredicateLetters(numPredicates)[p]])
  {
    var m := RandomModel(domainSize, numPredicates, sizeDraw, coins);
    var letters := PredicateLetters(numPredicates);
    ExtensionsKeys(m.domain, letters, coins, |letters|);
    forall p | 0 <= p < |letters|
      ensures m.ext[letters[p]] == Select(m.domain, coins[p])
      ensures IsSubsequence(m.ext[letters[p]], m.domain) && NoDuplicates(m.ext[letters[p]])
      ensures forall x :: x in m.ext[letters[p]] ==> x in m.domain
    {
      ExtensionsValues(m.domain, letters, coins, |letters|, p);
      SelectIsSubsequence(m.domain, coins[p]);
      SubsequenceInherits(m.ext[letters[p]], m.domain);
    }
    forall k, x | k in m.ext && x in m.ext[k] ensures x in m.domain {
      var p :| 0 <= p < |letters| && letters[p] == k;
    }
  }

  /**
   * `generateRandomModel(domainSize, numPredicates)`: picks the size, takes the
   * domain as a prefix of the name pool, and for each letter starts an empty
   * extension and pushes every individual whose coin is `true`.
   */
  method GenerateRandomModel(domainSize: Option<nat>, numPredicates: nat, sizeDraw: nat, coins: seq<seq<bool>>)
    returns (m: Model)
    requires RandomnessFits(domainSize, numPredicates, sizeDraw, coins)
    ensures m == RandomModel(domainSize, numPredicates, sizeDraw, coins)
    ensures Valid(m)
  {
    var size := if domainSize.None? || domainSize.value == 0 then 3 + sizeDraw else domainSize.value;
    var domain := Domain(size);
    var letters := PredicateLetters(numPredicates);
    var ext: map<string, seq<string>> := map[];
    var p := 0;
    while p < |letters|
      invariant 0 <= p <= |letters|
      invariant ext == Extensions(domain, letters, coins, p)
    {
      var pred := letters[p];
      var extension: seq<string> := [];
      var j := 0;
      while j < |domain|
        invariant 0 <= j <= |domain|
        invariant extension == Select(domain[..j], coins[p])
      {
        SelectStep(domain, coins[p], j);
        if coins[p][j] {
          extension := extension + [domain[j]];
        }
        j := j + 1;
      }
      assert domain[..|domain|] == domain;
      assert Extensions(domain, letters, coins, p + 1) == Extensions(domain, letters, coins, p)[pred := Select(domain, coins[p])];
      ext := ext[pred := extension];
      p := p + 1;
    }
    m := Model(domain, size, ext);
    RandomModelShape(domainSize, numPredicates, sizeDraw, coins);
  }

  // ---------------------------------------------------------------------------
  // Constants
  // ---------------------------------------------------------------------------

  /** What `generateConstants` needs from the random source: one in-range index per constant letter. */
  predicate ConstantDrawsFit(m: Model, numConstants: nat, draws: seq<nat>) {
    |draws| >= |ConstantLetters(numConstants)| &&
    forall i :: 0 <= i < |draws| ==> draws[i] < |m.domain|
  }

  /** The assignment of the first `n` letters, letter `i` denoting `domain[draws[i]]`. */
  function Assignment(domain: seq<string>, letters: seq<string>, draws: seq<nat>, n: nat): (r: map<string, string>)
    requires n <= |letters| <= |draws| && NoDuplicates(letters)
    requires forall i :: 0 <= i < |draws| ==> draws[i] < |domain|
    ensures forall c :: c in r ==> r[c] in domain
  {
    if n == 0 then map[]
    else Assignment(domain, letters, draws, n - 1)[letters[n - 1] := domain[draws[n - 1]]]
  }

  /** The assignment of the first `n` letters has exactly those letters as keys. */
  lemma {:induction false} AssignmentKeys(domain: seq<string>, letters: seq<string>, draws: seq<nat>, n: nat)
    requires n <= |letters| <= |draws| && NoDuplicates(letters)
    requires forall i :: 0 <= i < |draws| ==> draws[i] < |domain|
    ensures Assignment(domain, letters, draws, n).Keys == set i | 0 <= i < n :: letters[i]
  {
    if n > 0 {
      AssignmentKeys(domain, letters, draws, n - 1);
      var before := set i | 0 <= i < n - 1 :: letters[i];
      var after := set i | 0 <= i < n :: letters[i];
      assert after == before + {letters[n - 1]} by {
        forall x | x in after ensures x in before + {letters[n - 1]} {
          var i :| 0 <= i < n && letters[i] == x;
          if i < n - 1 {
            assert x in before;
          }
        }
        forall x | x in before ensures x in after {
          var i :| 0 <= i < n - 1 && letters[i] == x;
          assert 0 <= i < n;
        }
      }
    }
  }

  /** Letter `i` among the first `n` denotes `domain[draws[i]]`. */
  lemma {:induction false} AssignmentValues(domain: seq<string>, letters: seq<string>, draws: seq<nat>, n: nat, i: nat)
    requires n <= |letters| <= |draws| && NoDuplicates(letters)
    requires forall i :: 0 <= i < |draws| ==> draws[i] < |domain|
    requires i < n
    ensures letters[i] in Assignment(domain, letters, draws, n)
    ensures Assignment(domain, letters, draws, n)[letters[i]] == domain[draws[i]]
  {
    if i < n - 1 {
      AssignmentValues(domain, letters, draws, n - 1, i);
      assert letters[i] != letters[n - 1];
    }
  }

  /** The assignment `generateConstants(m, numConstants)` returns for the given random indices. */
  function Constants(m: Model, numConstants: nat, draws: seq<nat>): map<string, string>
    requires ConstantDrawsFit(m, numConstants, draws)
  {
    var letters := ConstantLetters(numConstants);
    Assignment(m.domain, letters, draws, |letters|)
  }

  /**
   * `generateConstants(model, numConstants)`: each of the first `numConstants`
   * constant letters, and no other key, denotes a member of the domain.
   */
  method GenerateConstants(m: Model, numConstants: nat, draws: seq<nat>) returns (constants: map<string, string>)
    requires ConstantDrawsFit(m, numConstants, draws)
    ensures constants == Constants(m, numConstants, draws)
    ensures constants.Keys == set i | 0 <= i < |ConstantLetters(numConstants)| :: ConstantLetters(numConstants)[i]
    ensures forall i :: 0 <= i < |ConstantLetters(numConstants)| ==>
      constants[ConstantLetters(numConstants)[i]] == m.domain[draws[i]]
    ensures forall c :: c in constants ==> constants[c] in m.domain
  {
    var letters := ConstantLetters(numConstants);
    constants := map[];
    for i := 0 to |letters|
      invariant constants == Assignment(m.domain, letters, draws, i)
    {
      constants := constants[letters[i] := m.domain[draws[i]]];
    }
    ConstantsShape(m, numConstants, draws);
  }

  /** Exactly the first `numConstants` constant letters are assigned, letter `i` to `domain[draws[i]]`. */
  lemma ConstantsShape(m: Model, numConstants: nat, draws: seq<nat>)
    requires ConstantDrawsFit(m, numConstants, draws)
    ensures var constants := Constants(m, numConstants, draws);
      && constants.Keys == (set i | 0 <= i < |ConstantLetters(numConstants)| :: ConstantLetters(numConstants)[i])
      && forall i :: 0 <= i < |ConstantLetters(numConstants)| ==>
           ConstantLetters(numConstants)[i] in constants && constants[ConstantLetters(numConstants)[i]] == m.domain[draws[i]]
  {
    var letters := ConstantLetters(numConstants);
    AssignmentKeys(m.domain, letters, draws, |letters|);
    forall i | 0 <= i < |letters|
      ensures letters[i] in Constants(m, numConstants, draws)
      ensures Constants(m, numConstants, draws)[letters[i]] == m.domain[draws[i]]
    {
      AssignmentValues(m.domain, letters, draws, |letters|, i);
    }
  }
}
