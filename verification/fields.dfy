/** Request bodies are mostly runs of `key: data.get(formKey, default)`
    entries. A `FieldRule` names one such entry; `Copy` evaluates a run of them
    the way a Python dict literal does. Describing the bodies by rule tables
    also gives an independent statement of what each body must carry. */
module Fields {
  import opened JsonValues

  /** One copied entry: the key it is read from in the caller's data, the key
      it is written to in the body, and the default for an absent key. */
  datatype FieldRule = FieldRule(formKey: string, key: string, default: Json)

  const Empty: Json := JStr("")

  /** An entry copied under its own name, defaulting to the empty string. */
  function Same(key: string): FieldRule {
    FieldRule(key, key, Empty)
  }

  /** The body keys a rule list writes. */
  function KeysOf(rules: seq<FieldRule>): set<string>
    decreases |rules|
  {
    if |rules| == 0 then {} else KeysOf(rules[..|rules| - 1]) + {rules[|rules| - 1].key}
  }

  /** Every key of `KeysOf(rules)` is written by some rule. */
  lemma {:induction false} KeysOfWritten(rules: seq<FieldRule>, k: string)
    requires k in KeysOf(rules)
    ensures exists i :: 0 <= i < |rules| && rules[i].key == k
    decreases |rules|
  {
    var n := |rules| - 1;
    if k != rules[n].key {
      KeysOfWritten(rules[..n], k);
      var i :| 0 <= i < n && rules[..n][i].key == k;
      assert rules[i] == rules[..n][i];
    }
  }

  /** Every rule's key is among the written keys. */
  lemma {:induction false} KeysOfHolds(rules: seq<FieldRule>, i: int)
    requires 0 <= i < |rules|
    ensures rules[i].key in KeysOf(rules)
    decreases |rules|
  {
    var n := |rules| - 1;
    if i < n {
      assert rules[..n][i] == rules[i];
      KeysOfHolds(rules[..n], i);
    }
  }

  /** A key that no rule writes is not among the copied keys. */
  lemma KeysOfExcludes(rules: seq<FieldRule>, outside: set<string>)
    requires forall i :: 0 <= i < |rules| ==> rules[i].key !in outside
    ensures KeysOf(rules) !! outside
  {
    forall k | k in KeysOf(rules) ensures k !in outside {
      KeysOfWritten(rules, k);
    }
  }

  /** No two rules of the list write the same body key. */
  predicate DistinctKeys(rules: seq<FieldRule>) {
    forall i, j :: 0 <= i < j < |rules| ==> rules[i].key != rules[j].key
  }

  /** Two lists with distinct keys, no key shared between them, join into a
      list with distinct keys. */
  lemma DistinctKeysJoin(a: seq<FieldRule>, b: seq<FieldRule>)
    requires DistinctKeys(a) && DistinctKeys(b)
    requires forall i, j :: 0 <= i < |a| && 0 <= j < |b| ==> a[i].key != b[j].key
    ensures DistinctKeys(a + b)
  {
    forall i, j | 0 <= i < j < |a + b| ensures (a + b)[i].key != (a + b)[j].key {
      if j < |a| {
        assert (a + b)[i] == a[i] && (a + b)[j] == a[j];
      } else if i < |a| {
        assert (a + b)[i] == a[i] && (a + b)[j] == b[j - |a|];
      } else {
        assert (a + b)[i] == b[i - |a|] && (a + b)[j] == b[j - |a|];
      }
    }
  }

  /** Rule `i` is the last one of the list that writes its body key. */
  predicate LastFor(rules: seq<FieldRule>, i: int)
    requires 0 <= i < |rules|
  {
    forall j :: i < j < |rules| ==> rules[j].key != rules[i].key
  }

  /** Evaluates the entries in order, a later entry for a key overriding an
      earlier one, as in a dict literal. */
  function Copy(form: Object, rules: seq<FieldRule>): (r: Object)
    ensures r.Keys == KeysOf(rules)
    decreases |rules|
  {
    if |rules| == 0 then map[]
    else
      var n := |rules| - 1;
      Copy(form, rules[..n])[rules[n].key := GetOr(form, rules[n].formKey, rules[n].default)]
  }

  /** The entry a key ends up with is the one its last rule reads. */
  lemma {:induction false} CopyValue(form: Object, rules: seq<FieldRule>, i: int)
    requires 0 <= i < |rules| && LastFor(rules, i)
    ensures rules[i].key in Copy(form, rules)
    ensures Copy(form, rules)[rules[i].key] == GetOr(form, rules[i].formKey, rules[i].default)
    decreases |rules|
  {
    var n := |rules| - 1;
    if i < n {
      var prefix := rules[..n];
      assert prefix[i] == rules[i];
      assert LastFor(prefix, i) by {
        forall j | i < j < n ensures prefix[j].key != prefix[i].key {
          assert prefix[j] == rules[j];
        }
      }
      CopyValue(form, prefix, i);
    }
  }

  /** Whether `obj` carries every entry of `rules` with the value the caller's
      data gives it, or the rule's default when the data lacks the key. */
  predicate CarriesForm(obj: Object, form: Object, rules: seq<FieldRule>) {
    forall i :: 0 <= i < |rules| ==>
      rules[i].key in obj && obj[rules[i].key] == GetOr(form, rules[i].formKey, rules[i].default)
  }

  /** With distinct keys, the copied object carries every rule's value. */
  lemma CopyCarriesForm(form: Object, rules: seq<FieldRule>)
    requires DistinctKeys(rules)
    ensures CarriesForm(Copy(form, rules), form, rules)
  {
    forall i | 0 <= i < |rules|
      ensures rules[i].key in Copy(form, rules)
      ensures Copy(form, rules)[rules[i].key] == GetOr(form, rules[i].formKey, rules[i].default)
    {
      CopyValue(form, rules, i);
    }
  }

  /** Entries written after the copy, under keys the rules do not use, leave
      the copied values in place. */
  lemma CarriesFormAfterUpdates(obj: Object, extra: Object, form: Object, rules: seq<FieldRule>)
    requires CarriesForm(obj, form, rules)
    requires forall i :: 0 <= i < |rules| ==> rules[i].key !in extra
    ensures CarriesForm(obj + extra, form, rules)
  {
  }

  /** A copied object completed with entries under keys the rules do not
      use carries both the form's values and the added entries. */
  lemma CopyThenUpdate(form: Object, rules: seq<FieldRule>, extra: Object)
    requires DistinctKeys(rules)
    requires forall i :: 0 <= i < |rules| ==> rules[i].key !in extra
    ensures CarriesForm(Copy(form, rules) + extra, form, rules)
    ensures forall k :: k in extra ==> (Copy(form, rules) + extra)[k] == extra[k]
  {
    CopyCarriesForm(form, rules);
    CarriesFormAfterUpdates(Copy(form, rules), extra, form, rules);
  }

  /** Entries added under keys from a set the rules never write leave the
      copied values in place. */
  lemma CarriesFormAfterUnion(obj: Object, extra: Object, outside: set<string>,
                              form: Object, rules: seq<FieldRule>)
    requires CarriesForm(obj, form, rules)
    requires extra.Keys <= outside && KeysOf(rules) !! outside
    ensures CarriesForm(obj + extra, form, rules)
  {
    forall i | 0 <= i < |rules| ensures rules[i].key !in extra {
      KeysOfHolds(rules, i);
    }
  }

  /** Writing a key the rules do not use leaves the copied values in place. */
  lemma CarriesFormAfterSet(obj: Object, k: string, v: Json, form: Object, rules: seq<FieldRule>)
    requires CarriesForm(obj, form, rules)
    requires k !in KeysOf(rules)
    ensures CarriesForm(obj[k := v], form, rules)
  {
    forall i | 0 <= i < |rules| ensures rules[i].key != k {
      KeysOfHolds(rules, i);
    }
  }

  /** The same for a write made only when the value is truthy. */
  lemma CarriesFormAfterPut(obj: Object, k: string, v: Json, form: Object, rules: seq<FieldRule>)
    requires CarriesForm(obj, form, rules)
    requires k !in KeysOf(rules)
    ensures CarriesForm(PutIfTruthy(obj, k, v), form, rules)
  {
    CarriesFormAfterSet(obj, k, v, form, rules);
  }
}
