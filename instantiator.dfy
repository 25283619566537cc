/**
 * Binding a template's placeholders and rendering its display formula
 * (`createSubstitutions`, `applySubstitutions` in Quiz-Monadic-Truth/quiz_generator.js).
 */
module Instantiator {
  import opened Wrappers
  import opened ProblemBank
  import opened ModelGenerator
  import ProblemBankLaws

  // ---------------------------------------------------------------------------
  // Lookups in a substitution
  // ---------------------------------------------------------------------------

  /** `Lookup` finds a key exactly when some binding has it, and with distinct keys it yields that binding's value. */
  lemma {:induction false} LookupFinds(s: Subst, key: string)
    ensures Lookup(s, key).Some? <==> exists i :: 0 <= i < |s| && s[i].0 == key
    ensures DistinctKeys(s) ==> forall i :: 0 <= i < |s| && s[i].0 == key ==> Lookup(s, key) == Some(s[i].1)
  {
    if |s| > 0 {
      LookupFinds(s[1..], key);
      if exists i :: 0 <= i < |s| && s[i].0 == key {
        var i :| 0 <= i < |s| && s[i].0 == key;
        if i > 0 {
          assert s[1..][i - 1].0 == key;
        }
      }
      if Lookup(s[1..], key).Some? {
        var i :| 0 <= i < |s| - 1 && s[1..][i].0 == key;
        assert s[i + 1].0 == key;
      }
    }
  }

  // ---------------------------------------------------------------------------
  // createSubstitutions
  // ---------------------------------------------------------------------------

  /** `String.fromCharCode(80 + i)`: the template placeholder with index `i`. */
  function PlaceholderLetter(i: nat): (r: string)
    requires i < 5
    ensures r == PLACEHOLDERS[i] == AVAILABLE_PREDICATES[i]
  {
    [(80 + i) as char]
  }

  /** Placeholder `i` bound to model letter `AVAILABLE_PREDICATES[i]`, for the first `n` placeholders. */
  function PredicateBindings(n: nat): (r: Subst)
    requires n <= 5
    ensures |r| == n
    ensures forall i :: 0 <= i < n ==> r[i] == (PLACEHOLDERS[i], AVAILABLE_PREDICATES[i])
  {
    if n == 0 then []
    else PredicateBindings(n - 1) + [(PlaceholderLetter(n - 1), AVAILABLE_PREDICATES[n - 1])]
  }

  /**
   * `subs[c] = constants[c]` for the first `n` constant letters. A letter the
   * assignment lacks gets no binding (the source stores `undefined`, which
   * every reader of a substitution treats as absent).
   */
  function ConstantBindings(letters: seq<string>, constants: map<string, string>, n: nat): (r: Subst)
    requires n <= |letters|
    ensures forall e :: e in r ==> e.0 in letters[..n] && e.0 in constants && e.1 == constants[e.0]
    ensures forall i :: 0 <= i < n && letters[i] in constants ==> (letters[i], constants[letters[i]]) in r
    ensures NoDuplicates(letters) ==> DistinctKeys(r)
  {
    if n == 0 then []
    else
      var c := letters[n - 1];
      var init := ConstantBindings(letters, constants, n - 1);
      assert forall e :: e in init ==> e.0 in letters[..n];
      init + (if c in constants then [(c, constants[c])] else [])
  }

  /** The substitution built for `numPredicates` predicate placeholders and `numConstants` constant letters. */
  function SubstitutionFor(numPredicates: nat, numConstants: nat, constants: map<string, string>): Subst {
    var letters := ConstantLetters(numConstants);
    PredicateBindings(|PredicateLetters(numPredicates)|)
      + (if numConstants > 0 then ConstantBindings(letters, constants, |letters|) else [])
  }

  /** The substitution `createSubstitutions(t, model, constants)` builds. */
  function Substitution(t: Template, constants: map<string, string>): Subst {
    SubstitutionFor(t.Info().predicates, t.Info().constants, constants)
  }

  /** A two-predicate entry without constants gets exactly the identity bindings P to P and Q to Q. */
  lemma TwoPredicateSubstitution(t: Template, constants: map<string, string>)
    requires t.Info().predicates == 2 && t.Info().constants == 0
    ensures Substitution(t, constants) == ProblemBankLaws.IdentityPQ()
  {
    assert PredicateBindings(2) == [("P", "P"), ("Q", "Q")];
  }

  /** The constant part of a substitution: its keys are constant letters, never placeholders. */
  lemma ConstantPartKeys(numConstants: nat, constants: map<string, string>)
    ensures var letters := ConstantLetters(numConstants);
      forall e :: e in ConstantBindings(letters, constants, |letters|) ==>
        e.0 in letters && e.0 in AVAILABLE_CONSTANTS && e.0 !in PLACEHOLDERS && e.0 in constants && e.1 == constants[e.0]
  {
    var letters := ConstantLetters(numConstants);
    assert letters[..|letters|] == letters;
  }

  /** Keys of a `SubstitutionFor` are distinct. */
  lemma {:induction false} SubstitutionForDistinct(numPredicates: nat, numConstants: nat, constants: map<string, string>)
    ensures DistinctKeys(SubstitutionFor(numPredicates, numConstants, constants))
  {
    var s := SubstitutionFor(numPredicates, numConstants, constants);
    var letters := ConstantLetters(numConstants);
    var preds := PredicateBindings(|PredicateLetters(numPredicates)|);
    var consts := if numConstants > 0 then ConstantBindings(letters, constants, |letters|) else [];
    ConstantPartKeys(numConstants, constants);
    assert s == preds + consts;
    forall i, j | 0 <= i < j < |s| ensures s[i].0 != s[j].0 {
      if j < |preds| {
      } else if i < |preds| {
        assert s[i].0 in PLACEHOLDERS;
        assert s[j] in consts;
      } else {
        assert s[i] == consts[i - |preds|] && s[j] == consts[j - |preds|];
      }
    }
  }

  /** Every placeholder of the first `numPredicates` is bound to itself. */
  lemma {:induction false} SubstitutionForPredicates(numPredicates: nat, numConstants: nat, constants: map<string, string>)
    ensures forall i :: 0 <= i < |PredicateLetters(numPredicates)| ==>
      Lookup(SubstitutionFor(numPredicates, numConstants, constants), PLACEHOLDERS[i]) == Some(PLACEHOLDERS[i])
  {
    var s := SubstitutionFor(numPredicates, numConstants, constants);
    SubstitutionForDistinct(numPredicates, numConstants, constants);
    forall i | 0 <= i < |PredicateLetters(numPredicates)| ensures Lookup(s, PLACEHOLDERS[i]) == Some(PLACEHOLDERS[i]) {
      LookupFinds(s, PLACEHOLDERS[i]);
      assert s[i] == (PLACEHOLDERS[i], PLACEHOLDERS[i]);
    }
  }

  /** `c` is bound to its assigned individual exactly when there are constants and `c` is assigned. */
  lemma {:induction false} SubstitutionForConstant(numPredicates: nat, numConstants: nat, constants: map<string, string>)
    ensures Lookup(SubstitutionFor(numPredicates, numConstants, constants), CONSTANT)
      == if numConstants > 0 && CONSTANT in constants then Some(constants[CONSTANT]) else None
  {
    var s := SubstitutionFor(numPredicates, numConstants, constants);
    var letters := ConstantLetters(numConstants);
    var preds := PredicateBindings(|PredicateLetters(numPredicates)|);
    var consts := if numConstants > 0 then ConstantBindings(letters, constants, |letters|) else [];
    assert s == preds + consts;
    ConstantPartKeys(numConstants, constants);
    SubstitutionForDistinct(numPredicates, numConstants, constants);
    LookupFinds(s, CONSTANT);
    if numConstants > 0 && CONSTANT in constants {
      assert letters[0] == CONSTANT;
      assert (CONSTANT, constants[CONSTANT]) in consts;
      var i :| 0 <= i < |consts| && consts[i] == (CONSTANT, constants[CONSTANT]);
      assert s[|preds| + i] == consts[i];
    } else {
      forall i | 0 <= i < |s| ensures s[i].0 != CONSTANT {
        if i >= |preds| {
          assert s[i] in consts;
        }
      }
    }
  }

  /** Every binding of a `SubstitutionFor` is a placeholder bound to itself or an assigned constant letter. */
  lemma {:induction false} SubstitutionForKeys(numPredicates: nat, numConstants: nat, constants: map<string, string>)
    ensures forall e :: e in SubstitutionFor(numPredicates, numConstants, constants) ==>
      (e.0 in PredicateLetters(numPredicates) && e.1 == e.0) ||
      (numConstants > 0 && e.0 in ConstantLetters(numConstants) && e.0 in constants && e.1 == constants[e.0])
  {
    var s := SubstitutionFor(numPredicates, numConstants, constants);
    var letters := ConstantLetters(numConstants);
    var preds := PredicateBindings(|PredicateLetters(numPredicates)|);
    var consts := if numConstants > 0 then ConstantBindings(letters, constants, |letters|) else [];
    assert s == preds + consts;
    ConstantPartKeys(numConstants, constants);
    forall e | e in s
      ensures (e.0 in PredicateLetters(numPredicates) && e.1 == e.0) ||
              (numConstants > 0 && e.0 in letters && e.0 in constants && e.1 == constants[e.0])
    {
      if e in preds {
        var i :| 0 <= i < |preds| && preds[i] == e;
        assert PredicateLetters(numPredicates)[i] == e.0;
      }
    }
  }

  /**
   * The substitution has distinct keys; placeholder `i` of the template's
   * first `predicates` is bound to the model letter of the same index, which
   * is the same letter; `c` is bound to the assigned individual exactly when
   * the template has a constant and the assignment has `c`; and there is no
   * other key.
   */
  lemma SubstitutionShape(t: Template, constants: map<string, string>)
    ensures var s := Substitution(t, constants);
      && DistinctKeys(s)
      && (forall i :: 0 <= i < |PredicateLetters(t.Info().predicates)| ==>
            Lookup(s, PLACEHOLDERS[i]) == Some(AVAILABLE_PREDICATES[i]))
      && Lookup(s, CONSTANT) == (if t.Info().constants > 0 && CONSTANT in constants then Some(constants[CONSTANT]) else None)
      && forall e :: e in s ==>
           (e.0 in PredicateLetters(t.Info().predicates) && e.1 == e.0) ||
           (t.Info().constants > 0 && e.0 in ConstantLetters(t.Info().constants) && e.0 in constants && e.1 == constants[e.0])
  {
    var info := t.Info();
    SubstitutionForDistinct(info.predicates, info.constants, constants);
    SubstitutionForPredicates(info.predicates, info.constants, constants);
    SubstitutionForConstant(info.predicates, info.constants, constants);
    SubstitutionForKeys(info.predicates, info.constants, constants);
  }

  /**
   * `createSubstitutions(problem, model, constants)`: binds the template's
   * predicate placeholders in order, then, when the template has constants,
   * its constant letters. The model is not consulted.
   */
  method CreateSubstitutions(t: Template, m: Model, constants: map<string, string>) returns (subs: Subst)
    ensures subs == Substitution(t, constants)
  {
    subs := [];
    var predicateLetters := Prefix(AVAILABLE_PREDICATES, t.Info().predicates);
    for index := 0 to |predicateLetters|
      invariant subs == PredicateBindings(index)
    {
      var templateVar := PlaceholderLetter(index);
      subs := subs + [(templateVar, predicateLetters[index])];
    }
    if t.Info().constants > 0 {
      var constantLetters := Prefix(AVAILABLE_CONSTANTS, t.Info().constants);
      ghost var base := subs;
      for i := 0 to |constantLetters|
        invariant subs == base + ConstantBindings(constantLetters, constants, i)
      {
        var c := constantLetters[i];
        if c in constants {
          subs := subs + [(c, constants[c])];
        }
      }
    }
  }

  // ---------------------------------------------------------------------------
  // applySubstitutions
  // ---------------------------------------------------------------------------

  /** `key.match(/^[PQRST]$/)`: the key is a single predicate placeholder letter. */
  predicate IsPredicateKey(key: string) {
    |key| == 1 && key[0] in "PQRST"
  }

  /** `f` has an application `k(` starting at position `i`. */
  predicate IsCallAt(f: string, i: nat, k: char) {
    i + 1 < |f| && f[i] == k && f[i + 1] == '('
  }

  /**
   * `f.replace(new RegExp(k + '\\(', 'g'), v + '(')`: every `k(`, scanning
   * left to right without overlap, becomes `v(`.
   */
  function ReplaceCalls(f: string, k: char, v: string): string
    decreases |f|
  {
    if |f| == 0 then []
    else if IsCallAt(f, 0, k) then v + "(" + ReplaceCalls(f[2..], k, v)
    else [f[0]] + ReplaceCalls(f[1..], k, v)
  }

  /** One step of the renderer: predicate keys rewrite their calls, every other key is skipped. */
  function RenderStep(f: string, binding: (string, string)): string {
    if IsPredicateKey(binding.0) then ReplaceCalls(f, binding.0[0], binding.1) else f
  }

  /** What `applySubstitutions(template, subs)` returns: the steps applied in key order. */
  function Render(template: string, subs: Subst): string
    decreases |subs|
  {
    if |subs| == 0 then template
    else RenderStep(Render(template, subs[..|subs| - 1]), subs[|subs| - 1])
  }

  /** `applySubstitutions(template, subs)`. */
  method ApplySubstitutions(template: string, subs: Subst) returns (formula: string)
    ensures formula == Render(template, subs)
  {
    formula := template;
    for i := 0 to |subs|
      invariant formula == Render(template, subs[..i])
    {
      assert subs[..i + 1][..i] == subs[..i];
      var (key, value) := subs[i];
      if IsPredicateKey(key) {
        formula := ReplaceCalls(formula, key[0], value);
      }
    }
    assert subs[..|subs|] == subs;
  }

  /** Replacing a letter's calls by the same letter changes nothing. */
  lemma {:induction false} ReplaceCallsBySelf(f: string, k: char)
    ensures ReplaceCalls(f, k, [k]) == f
    decreases |f|
  {
    if |f| > 0 {
      if IsCallAt(f, 0, k) {
        ReplaceCallsBySelf(f[2..], k);
        assert f == [k] + "(" + f[2..];
      } else {
        ReplaceCallsBySelf(f[1..], k);
        assert f == [f[0]] + f[1..];
      }
    }
  }

  /**
   * With a one-letter replacement, replacing keeps the length, rewrites exactly
   * the positions where a call `k(` begins, and leaves every other character,
   * constants, connectives and parentheses included, where it was.
   */
  lemma {:induction false} ReplaceCallsAt(f: string, k: char, v: string)
    requires |v| == 1 && k != '('
    ensures |ReplaceCalls(f, k, v)| == |f|
    ensures forall i :: 0 <= i < |f| ==>
      ReplaceCalls(f, k, v)[i] == if IsCallAt(f, i, k) then v[0] else f[i]
    decreases |f|
  {
    if |f| > 0 {
      var r := ReplaceCalls(f, k, v);
      if IsCallAt(f, 0, k) {
        var rest := f[2..];
        ReplaceCallsAt(rest, k, v);
        assert r == v + "(" + ReplaceCalls(rest, k, v);
        forall i | 2 <= i < |f| ensures r[i] == if IsCallAt(f, i, k) then v[0] else f[i] {
          assert r[i] == ReplaceCalls(rest, k, v)[i - 2];
          assert IsCallAt(f, i, k) == IsCallAt(rest, i - 2, k);
        }
        assert !IsCallAt(f, 1, k);
      } else {
        var rest := f[1..];
        ReplaceCallsAt(rest, k, v);
        assert r == [f[0]] + ReplaceCalls(rest, k, v);
        forall i | 1 <= i < |f| ensures r[i] == if IsCallAt(f, i, k) then v[0] else f[i] {
          assert r[i] == ReplaceCalls(rest, k, v)[i - 1];
          assert IsCallAt(f, i, k) == IsCallAt(rest, i - 1, k);
        }
      }
    }
  }

  /** Every predicate key is bound to itself. */
  predicate BindsPredicatesToThemselves(subs: Subst) {
    forall i :: 0 <= i < |subs| && IsPredicateKey(subs[i].0) ==> subs[i].1 == subs[i].0
  }

  /** Under a substitution that binds every predicate key to itself, the rendered formula is the template. */
  lemma {:induction false} RenderIdentity(template: string, subs: Subst)
    requires BindsPredicatesToThemselves(subs)
    ensures Render(template, subs) == template
    decreases |subs|
  {
    if |subs| > 0 {
      var init := subs[..|subs| - 1];
      assert BindsPredicatesToThemselves(init) by {
        forall i | 0 <= i < |init| && IsPredicateKey(init[i].0) ensures init[i].1 == init[i].0 {
          assert init[i] == subs[i];
        }
      }
      RenderIdentity(template, init);
      var (key, value) := subs[|subs| - 1];
      if IsPredicateKey(key) {
        assert value == [key[0]];
        ReplaceCallsBySelf(template, key[0]);
      }
    }
  }

  /** Every predicate key is bound to a single placeholder letter. */
  predicate BindsPredicatesToLetters(subs: Subst) {
    forall i :: 0 <= i < |subs| && IsPredicateKey(subs[i].0) ==> |subs[i].1| == 1 && subs[i].1[0] in "PQRST"
  }

  /**
   * When predicate keys are bound to single letters, rendering keeps the
   * template's length and changes a character only where it is a predicate
   * letter opening a call `X(`, and then only to another predicate letter:
   * constants, variables, connectives, quantifiers and parentheses stay.
   */
  lemma {:induction false} RenderRewritesOnlyCalls(template: string, subs: Subst)
    requires BindsPredicatesToLetters(subs)
    ensures |Render(template, subs)| == |template|
    ensures forall i :: 0 <= i < |template| ==>
      Render(template, subs)[i] == template[i] ||
      (template[i] in "PQRST" && IsCallAt(template, i, template[i]) && Render(template, subs)[i] in "PQRST")
    decreases |subs|
  {
    if |subs| > 0 {
      var init := subs[..|subs| - 1];
      assert BindsPredicatesToLetters(init) by {
        forall i | 0 <= i < |init| && IsPredicateKey(init[i].0)
          ensures |init[i].1| == 1 && init[i].1[0] in "PQRST"
        {
          assert init[i] == subs[i];
        }
      }
      RenderRewritesOnlyCalls(template, init);
      var f := Render(template, init);
      var (key, value) := subs[|subs| - 1];
      if IsPredicateKey(key) {
        ReplaceCallsAt(f, key[0], value);
        var r := ReplaceCalls(f, key[0], value);
        forall i | 0 <= i < |template|
          ensures r[i] == template[i] ||
            (template[i] in "PQRST" && IsCallAt(template, i, template[i]) && r[i] in "PQRST")
        {
          if IsCallAt(f, i, key[0]) {
            assert f[i + 1] == '(' ;
            assert f[i + 1] == template[i + 1];
          }
        }
      }
    }
  }

  /** No constant letter is a predicate placeholder key. */
  lemma ConstantLettersAreNotKeys()
    ensures forall x :: x in AVAILABLE_CONSTANTS ==> !IsPredicateKey(x)
  {
  }

  /** A `SubstitutionFor` binds every predicate key to itself: constant letters are never predicate keys. */
  lemma {:induction false} SubstitutionForSelfBound(numPredicates: nat, numConstants: nat, constants: map<string, string>)
    ensures BindsPredicatesToThemselves(SubstitutionFor(numPredicates, numConstants, constants))
  {
    var s := SubstitutionFor(numPredicates, numConstants, constants);
    var letters := ConstantLetters(numConstants);
    var preds := PredicateBindings(|PredicateLetters(numPredicates)|);
    var consts := if numConstants > 0 then ConstantBindings(letters, constants, |letters|) else [];
    assert s == preds + consts;
    ConstantPartKeys(numConstants, constants);
    ConstantLettersAreNotKeys();
    forall i | 0 <= i < |s| ensures IsPredicateKey(s[i].0) ==> s[i].1 == s[i].0 {
      if i < |preds| {
        assert s[i] == (PlaceholderLetter(i), AVAILABLE_PREDICATES[i]);
      } else {
        assert s[i] in consts;
      }
    }
  }

  /** The formula a quiz displays for a template is the template's own pattern, e.g. `P(c) ∧ Q(c)`. */
  lemma RenderedPatternIsTemplate(t: Template, constants: map<string, string>)
    ensures Render(t.Pattern(), Substitution(t, constants)) == t.Pattern()
  {
    SubstitutionForSelfBound(t.Info().predicates, t.Info().constants, constants);
    RenderIdentity(t.Pattern(), Substitution(t, constants));
  }

}
