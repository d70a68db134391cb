/** Caller-supplied request parameters and the presence check made on them
    before any request is sent. */
module Parameters {

  datatype Option<T> = None | Some(value: T)

  /** An ordered parameter set: (key, value) pairs in insertion order, the
      values already in the string form they take in a query string. */
  type Params = seq<(string, string)>

  /** `k` is a key of `ps`. Presence is key membership only: the value paired
      with the key plays no part, so "", "0" or "false" count as present. */
  predicate HasKey(ps: Params, k: string)
  {
    exists i :: 0 <= i < |ps| && ps[i].0 == k
  }

  /** The first name of `required`, in list order, that is not a key of `ps`. */
  function FirstMissing(required: seq<string>, ps: Params): (r: Option<string>)
    ensures r.Some? ==> r.value in required && !HasKey(ps, r.value)
  {
    if required == [] then None
    else if !HasKey(ps, required[0]) then Some(required[0])
    else FirstMissing(required[1..], ps)
  }

  /** All of `required` are keys of `ps`. */
  predicate AllPresent(required: seq<string>, ps: Params)
  {
    forall i :: 0 <= i < |required| ==> HasKey(ps, required[i])
  }

  /** Validation passes exactly when every required name is present; when it
      fails, it names a required name that is absent and that no absent name
      precedes in the required list. */
  lemma {:induction false} FirstMissingCharacterised(required: seq<string>, ps: Params)
    ensures FirstMissing(required, ps).None? <==> AllPresent(required, ps)
    ensures FirstMissing(required, ps).Some? ==>
      exists i :: 0 <= i < |required| && required[i] == FirstMissing(required, ps).value &&
        !HasKey(ps, required[i]) && AllPresent(required[..i], ps)
  {
    if required != [] {
      FirstMissingCharacterised(required[1..], ps);
      if HasKey(ps, required[0]) {
        if FirstMissing(required, ps).Some? {
          var i :| 0 <= i < |required[1..]| && required[1..][i] == FirstMissing(required, ps).value &&
            !HasKey(ps, required[1..][i]) && AllPresent(required[1..][..i], ps);
          assert required[..i + 1] == [required[0]] + required[1..][..i];
          assert AllPresent(required[..i + 1], ps);
        }
      } else {
        assert AllPresent(required[..0], ps);
      }
    }
  }

  /** Only the set of keys matters to validation, never the values nor the
      order of the parameters. */
  lemma {:induction false} FirstMissingDependsOnlyOnKeys(required: seq<string>, p: Params, q: Params)
    requires forall k :: HasKey(p, k) <==> HasKey(q, k)
    ensures FirstMissing(required, p) == FirstMissing(required, q)
  {
    if required != [] {
      FirstMissingDependsOnlyOnKeys(required[1..], p, q);
    }
  }

  /** `ps` without the entries whose key is `f`: how the tests take one
      field away from an otherwise complete parameter set. */
  function Remove(ps: Params, f: string): (r: Params)
    ensures forall k :: HasKey(r, k) <==> HasKey(ps, k) && k != f
    ensures |r| <= |ps|
  {
    if ps == [] then []
    else
      var rest := Remove(ps[1..], f);
      assert forall k :: HasKey(ps, k) <==> ps[0].0 == k || HasKey(ps[1..], k) by {
        forall k | HasKey(ps, k) && ps[0].0 != k ensures HasKey(ps[1..], k) {
          var i :| 0 <= i < |ps| && ps[i].0 == k;
          assert ps[1..][i - 1].0 == k;
        }
        forall k | HasKey(ps[1..], k) ensures HasKey(ps, k) {
          var i :| 0 <= i < |ps[1..]| && ps[1..][i].0 == k;
          assert ps[i + 1].0 == k;
        }
      }
      if ps[0].0 == f then rest
      else
        var r := [ps[0]] + rest;
        assert forall k :: HasKey(r, k) <==> r[0].0 == k || HasKey(rest, k) by {
          forall k | HasKey(r, k) && r[0].0 != k ensures HasKey(rest, k) {
            var i :| 0 <= i < |r| && r[i].0 == k;
            assert rest[i - 1].0 == k;
          }
          forall k | HasKey(rest, k) ensures HasKey(r, k) {
            var i :| 0 <= i < |rest| && rest[i].0 == k;
            assert r[i + 1].0 == k;
          }
        }
        r
  }

  /** Taking one required field away from a complete parameter set makes
      validation report exactly that field, whichever it is. */
  lemma {:induction false} FirstMissingAfterRemove(required: seq<string>, ps: Params, f: string)
    requires AllPresent(required, ps)
    requires f in required
    ensures FirstMissing(required, Remove(ps, f)) == Some(f)
  {
    if required[0] != f {
      assert f in required[1..];
      FirstMissingAfterRemove(required[1..], ps, f);
    }
  }
}
