/**
 * The type-transform generator (goagen/jsgen): how object fields are
 * paired by key, which source and target types are compatible, and the
 * nested transforms the Go templates call. An error in a nested transform
 * makes RunTemplate panic. The template text is not produced; a success
 * yields the template and the data it would be run with.
 */
module Transform {
  import opened Wrappers
  import opened Design
  import opened JsTypes
  import Identifiers

  /** TransformMapKey: metadata giving the key under which a field is paired. */
  const TransformMapKey := "transform:key"

  /** The transform-key metadata is present without a value. */
  predicate Malformed(att: Attribute) {
    TransformMapKey in att.metadata && |att.metadata[TransformMapKey]| == 0
  }

  /** The key of field `name`: its first transform-key value, or its name. */
  function MapKey(name: string, att: Attribute): string {
    if TransformMapKey in att.metadata && |att.metadata[TransformMapKey]| > 0
    then att.metadata[TransformMapKey][0] else name
  }

  predicate WellFormed(attrs: map<string, Attribute>) {
    forall n :: n in attrs ==> !Malformed(attrs[n])
  }

  /** `index` maps keys to field names of `attrs`, and holds the key of every field. */
  predicate IsKeyIndex(attrs: map<string, Attribute>, index: map<string, string>) {
    && (forall k :: k in index ==> index[k] in attrs && MapKey(index[k], attrs[index[k]]) == k)
    && (forall n :: n in attrs ==> MapKey(n, attrs[n]) in index)
  }

  /** Why a transform cannot be generated; the Go code formats each as a message. */
  datatype TransformError =
    | MissingKeyValue(attribute: string, ctx: string, inSource: bool)
    | IncompatibleAttributes(sctx: string, tctx: string, source: DataType, target: DataType)
    | IncompatibleFields(sctx: string, tctx: string, source: DataType, target: DataType)
    | IncompatibleElements(sctx: string, tctx: string, source: DataType, target: DataType, inHash: bool)
    | IncompatibleKeys(sctx: string, tctx: string, source: DataType, target: DataType)
    | NotSameContainer(source: DataType, target: DataType)

  /** What a transform function does: produce a result, return an error, or panic. */
  datatype Outcome<T> = Done(value: T) | Failed(error: TransformError) | Panicked

  /** The code a successful check goes on to render, with the data given to the template. */
  datatype Generated =
    | Assignment(depth: int, tctx: string, sctx: string)
    | ArrayTemplate(sourceElem: Attribute, targetElem: Attribute, targetPkg: string, sctx: string, tctx: string, depth: int)
    | HashTemplate(sourceHash: (Attribute, Attribute), targetHash: (Attribute, Attribute), targetPkg: string, sctx: string, tctx: string, depth: int)
    | ObjectTemplate(mapping: map<string, string>, targetPkg: string, targetType: string, sctx: string, tctx: string, depth: int)
    | FunctionTemplate(name: string, targetRef: string, targetPkg: string, impl: Generated)

  // ---------------------------------------------------------------------
  // computeMapping
  // ---------------------------------------------------------------------

  /**
   * One of the first two loops of computeMapping: indexes the fields of
   * `attrs` by key, in map order (a later field with the same key
   * replaces an earlier one), and stops at the first malformed field.
   */
  method KeyIndex(attrs: map<string, Attribute>) returns (r: Result<map<string, string>, string>)
    ensures r.Ok? <==> WellFormed(attrs)
    ensures r.Err? ==> r.error in attrs && Malformed(attrs[r.error])
    ensures r.Ok? ==> IsKeyIndex(attrs, r.value)
  {
    var index: map<string, string> := map[];
    var rest := attrs.Keys;
    while rest != {}
      invariant rest <= attrs.Keys
      invariant forall n :: n in attrs && n !in rest ==> !Malformed(attrs[n]) && MapKey(n, attrs[n]) in index
      invariant forall k :: k in index ==> index[k] in attrs && MapKey(index[k], attrs[index[k]]) == k
      decreases |rest|
    {
      var name :| name in rest;
      var att := attrs[name];
      var key := name;
      if TransformMapKey in att.metadata {
        var keys := att.metadata[TransformMapKey];
        if |keys| == 0 {
          return Err(name);
        }
        key := keys[0];
      }
      index := index[key := name];
      rest := rest - {name};
    }
    return Ok(index);
  }

  /**
   * `mapping` pairs source fields with target fields of the same key, uses
   * each key once, and covers every key that both sides have.
   */
  predicate IsMapping(source: map<string, Attribute>, target: map<string, Attribute>, mapping: map<string, string>) {
    && (forall s :: s in mapping ==>
          s in source && mapping[s] in target && MapKey(s, source[s]) == MapKey(mapping[s], target[mapping[s]]))
    && (forall s1, s2 :: s1 in mapping && s2 in mapping && MapKey(s1, source[s1]) == MapKey(s2, source[s2]) ==> s1 == s2)
    && (forall s, t :: s in source && t in target && MapKey(s, source[s]) == MapKey(t, target[t]) ==>
          exists s' :: s' in mapping && MapKey(s', source[s']) == MapKey(s, source[s]))
  }

  /**
   * computeMapping: pairs the fields of `source` and `target` whose keys
   * match. A malformed transform key is an error (the source is checked
   * first); target fields with no source field are left out.
   */
  method ComputeMapping(source: map<string, Attribute>, target: map<string, Attribute>, sctx: string, tctx: string)
    returns (r: Result<map<string, string>, TransformError>)
    ensures r.Err? <==> !WellFormed(source) || !WellFormed(target)
    ensures r.Err? && !WellFormed(source) ==>
      r.error.MissingKeyValue? && r.error.inSource && r.error.ctx == sctx
      && r.error.attribute in source && Malformed(source[r.error.attribute])
    ensures r.Err? && WellFormed(source) ==>
      r.error.MissingKeyValue? && !r.error.inSource && r.error.ctx == tctx
      && r.error.attribute in target && Malformed(target[r.error.attribute])
    ensures r.Ok? ==> IsMapping(source, target, r.value)
  {
    var sourceIndex := KeyIndex(source);
    if sourceIndex.Err? {
      return Err(MissingKeyValue(sourceIndex.error, sctx, true));
    }
    var targetIndex := KeyIndex(target);
    if targetIndex.Err? {
      return Err(MissingKeyValue(targetIndex.error, tctx, false));
    }
    var mapping := Pair(source, target, sourceIndex.value, targetIndex.value);
    return Ok(mapping);
  }

  /** The last loop of computeMapping: joins the two key indexes. */
  method Pair(source: map<string, Attribute>, target: map<string, Attribute>, sourceIndex: map<string, string>, targetIndex: map<string, string>)
    returns (mapping: map<string, string>)
    requires IsKeyIndex(source, sourceIndex) && IsKeyIndex(target, targetIndex)
    ensures IsMapping(source, target, mapping)
  {
    mapping := map[];
    var rest := sourceIndex.Keys;
    while rest != {}
      invariant rest <= sourceIndex.Keys
      invariant Paired(source, target, sourceIndex, mapping)
      invariant forall k :: k in sourceIndex && k !in rest && k in targetIndex ==> sourceIndex[k] in mapping
      decreases |rest|
    {
      var key :| key in rest;
      if key in targetIndex {
        PairedExtend(source, target, sourceIndex, targetIndex, mapping, key);
        mapping := mapping[sourceIndex[key] := targetIndex[key]];
      }
      rest := rest - {key};
    }
    forall s, t | s in source && t in target && MapKey(s, source[s]) == MapKey(t, target[t])
      ensures exists s' :: s' in mapping && MapKey(s', source[s']) == MapKey(s, source[s])
    {
      var k := MapKey(s, source[s]);
      assert k in sourceIndex && k in targetIndex;
      var s' := sourceIndex[k];
      assert s' in mapping && MapKey(s', source[s']) == k;
    }
  }

  /** Each paired source field is the one its key indexes, and its partner has the same key. */
  ghost predicate Paired(source: map<string, Attribute>, target: map<string, Attribute>, sourceIndex: map<string, string>, mapping: map<string, string>)
  {
    forall s :: s in mapping ==>
      s in source && MapKey(s, source[s]) in sourceIndex && sourceIndex[MapKey(s, source[s])] == s
      && mapping[s] in target && MapKey(s, source[s]) == MapKey(mapping[s], target[mapping[s]])
  }

  /** Pairing one more key shared by both indexes keeps the pairs consistent. */
  lemma PairedExtend(source: map<string, Attribute>, target: map<string, Attribute>, sourceIndex: map<string, string>,
                     targetIndex: map<string, string>, mapping: map<string, string>, key: string)
    requires IsKeyIndex(source, sourceIndex) && IsKeyIndex(target, targetIndex)
    requires Paired(source, target, sourceIndex, mapping)
    requires key in sourceIndex && key in targetIndex
    ensures Paired(source, target, sourceIndex, mapping[sourceIndex[key] := targetIndex[key]])
  {
    var s, t := sourceIndex[key], targetIndex[key];
    assert s in source && MapKey(s, source[s]) == key;
    assert t in target && MapKey(t, target[t]) == key;
  }

  // ---------------------------------------------------------------------
  // When the generated code renders
  // ---------------------------------------------------------------------

  /** The fields of an object type, and the elements and keys of array and hash types, are smaller than the type. */
  lemma ToObjectSmaller(t: DataType)
    ensures forall n :: n in ToObject(t) ==> ToObject(t)[n] < t
  {
  }

  lemma ToArraySmaller(t: DataType)
    ensures ToArray(t).Some? ==> ToArray(t).value < t
  {
  }

  lemma ToHashSmaller(t: DataType)
    ensures ToHash(t).Some? ==> ToHash(t).value.0 < t && ToHash(t).value.1 < t
  {
  }

  /**
   * transformAttribute from `source` to `target` yields code, neither an
   * error nor a panic, at every level of nesting: the kinds agree, arrays
   * and hashes exist on both sides with elements (and keys) that render,
   * and paired object fields render. Fields sharing a transform key are
   * paired in map order: with `everyPairing` this holds whichever pair Go
   * picks, without it for some pair per key.
   */
  ghost predicate Renders(source: DataType, target: DataType, everyPairing: bool)
    decreases source, 1
  {
    && KindOf(source) == KindOf(target)
    && if IsArray(source) then
         ToArraySmaller(source);
         var se, te := ToArray(source), ToArray(target);
         se.Some? && te.Some? && Renders(se.value.typ, te.value.typ, everyPairing)
       else if IsHash(source) then
         ToHashSmaller(source);
         var sh, th := ToHash(source), ToHash(target);
         && sh.Some? && th.Some?
         && Renders(sh.value.0.typ, th.value.0.typ, everyPairing)
         && Renders(sh.value.1.typ, th.value.1.typ, everyPairing)
       else if IsObject(source) then
         ToObjectSmaller(source);
         FieldsRender(ToObject(source), ToObject(target), everyPairing, source)
       else true
  }

  /**
   * The object part of Renders: both sides have usable keys, and the fields
   * paired by key render. `bound` is a type the source fields belong to.
   */
  ghost predicate FieldsRender(source: map<string, Attribute>, target: map<string, Attribute>, everyPairing: bool, bound: DataType)
    requires forall n :: n in source ==> source[n] < bound
    decreases bound, 0
  {
    && WellFormed(source) && WellFormed(target)
    && forall s, t :: s in source && t in target && MapKey(s, source[s]) == MapKey(t, target[t]) ==>
         if everyPairing then Renders(source[s].typ, target[t].typ, true)
         else (exists s', t' :: s' in source && t' in target
                 && MapKey(s', source[s']) == MapKey(s, source[s]) && MapKey(t', target[t']) == MapKey(s, source[s])
                 && Renders(source[s'].typ, target[t'].typ, false))
  }

  /** What renders for every pairing renders for some pairing. */
  lemma {:induction false} EveryPairingRenders(source: DataType, target: DataType)
    requires Renders(source, target, true)
    ensures Renders(source, target, false)
    decreases source, 1
  {
    if IsArray(source) {
      ToArraySmaller(source);
      EveryPairingRenders(ToArray(source).value.typ, ToArray(target).value.typ);
    } else if IsHash(source) {
      ToHashSmaller(source);
      EveryPairingRenders(ToHash(source).value.0.typ, ToHash(target).value.0.typ);
      EveryPairingRenders(ToHash(source).value.1.typ, ToHash(target).value.1.typ);
    } else if IsObject(source) {
      ToObjectSmaller(source);
      EveryPairingFieldsRender(ToObject(source), ToObject(target), source);
    }
  }

  lemma {:induction false} EveryPairingFieldsRender(source: map<string, Attribute>, target: map<string, Attribute>, bound: DataType)
    requires forall n :: n in source ==> source[n] < bound
    requires FieldsRender(source, target, true, bound)
    ensures FieldsRender(source, target, false, bound)
    decreases bound, 0
  {
    forall s, t | s in source && t in target && MapKey(s, source[s]) == MapKey(t, target[t])
      ensures Renders(source[s].typ, target[t].typ, false)
    {
      EveryPairingRenders(source[s].typ, target[t].typ);
    }
  }

  /** The outcome is the check's, except that a check that passed may still panic when its template runs. */
  predicate Settles(r: Outcome<Generated>, check: Outcome<Generated>) {
    r == check || (check.Done? && r.Panicked?)
  }

  // ---------------------------------------------------------------------
  // The transforms
  // ---------------------------------------------------------------------

  /**
   * The check transformArray makes before its template runs: the element
   * kinds must agree. A missing array (Go's nil from ToArray) is
   * dereferenced, which panics.
   */
  function ArrayCheck(source: Option<Attribute>, target: Option<Attribute>, targetPkg: string, sctx: string, tctx: string, depth: int): (r: Outcome<Generated>)
    ensures source.None? || target.None? <==> r.Panicked?
    ensures r.Failed? <==> source.Some? && target.Some? && KindOf(source.value.typ) != KindOf(target.value.typ)
    ensures r.Done? ==> r.value.ArrayTemplate? && r.value.sourceElem == source.value && r.value.targetElem == target.value
  {
    if source.None? || target.None? then Panicked
    else if KindOf(source.value.typ) != KindOf(target.value.typ) then
      Failed(IncompatibleElements(sctx, tctx, source.value.typ, target.value.typ, false))
    else Done(ArrayTemplate(source.value, target.value, targetPkg, sctx, tctx, depth))
  }

  /** The check transformHash makes before its template runs: element kinds, then key kinds. */
  function HashCheck(source: Option<(Attribute, Attribute)>, target: Option<(Attribute, Attribute)>, targetPkg: string, sctx: string, tctx: string, depth: int): (r: Outcome<Generated>)
    ensures source.None? || target.None? <==> r.Panicked?
    ensures r.Failed? <==> (source.Some? && target.Some? &&
      (KindOf(source.value.1.typ) != KindOf(target.value.1.typ) || KindOf(source.value.0.typ) != KindOf(target.value.0.typ)))
    ensures r.Failed? && KindOf(source.value.1.typ) != KindOf(target.value.1.typ) ==> r.error.IncompatibleElements?
    ensures r.Failed? && KindOf(source.value.1.typ) == KindOf(target.value.1.typ) ==> r.error.IncompatibleKeys?
  {
    if source.None? || target.None? then Panicked
    else
      var (sk, se) := source.value;
      var (tk, te) := target.value;
      if KindOf(se.typ) != KindOf(te.typ) then Failed(IncompatibleElements(sctx, tctx, se.typ, te.typ, true))
      else if KindOf(sk.typ) != KindOf(tk.typ) then Failed(IncompatibleKeys(sctx, tctx, sk.typ, tk.typ))
      else Done(HashTemplate(source.value, target.value, targetPkg, sctx, tctx, depth))
  }

  /**
   * transformArray: the check, then the template, which transforms the
   * element type one level deeper. An error there makes RunTemplate panic.
   * `bound` is a type the source element belongs to.
   */
  method TransformArray(source: Option<Attribute>, target: Option<Attribute>, targetPkg: string, sctx: string, tctx: string, depth: int, ghost bound: DataType)
    returns (r: Outcome<Generated>)
    requires source.Some? ==> source.value < bound
    ensures Settles(r, ArrayCheck(source, target, targetPkg, sctx, tctx, depth))
    ensures source.Some? && target.Some? && Renders(source.value.typ, target.value.typ, true) ==> r.Done?
    ensures r.Done? ==> source.Some? && target.Some? && Renders(source.value.typ, target.value.typ, false)
    decreases bound, 1
  {
    r := ArrayCheck(source, target, targetPkg, sctx, tctx, depth);
    if r.Done? {
      var elem := TransformAttribute(source.value, target.value, targetPkg, sctx + "[i]", tctx + "[i]", depth + 1);
      if !elem.Done? {
        r := Panicked;
      }
    }
  }

  /**
   * transformHash: the check, then the template, which transforms the key
   * type and then the element type one level deeper; an error in either
   * makes RunTemplate panic.
   */
  method TransformHash(source: Option<(Attribute, Attribute)>, target: Option<(Attribute, Attribute)>, targetPkg: string, sctx: string, tctx: string, depth: int, ghost bound: DataType)
    returns (r: Outcome<Generated>)
    requires source.Some? ==> source.value.0 < bound && source.value.1 < bound
    ensures Settles(r, HashCheck(source, target, targetPkg, sctx, tctx, depth))
    ensures (source.Some? && target.Some? && Renders(source.value.0.typ, target.value.0.typ, true)
             && Renders(source.value.1.typ, target.value.1.typ, true)) ==> r.Done?
    ensures r.Done? ==> (source.Some? && target.Some? && Renders(source.value.0.typ, target.value.0.typ, false)
                         && Renders(source.value.1.typ, target.value.1.typ, false))
    decreases bound, 1
  {
    r := HashCheck(source, target, targetPkg, sctx, tctx, depth);
    if r.Done? {
      var key := TransformAttribute(source.value.0, target.value.0, targetPkg, "k", "tk", depth + 1);
      if !key.Done? {
        return Panicked;
      }
      var elem := TransformAttribute(source.value.1, target.value.1, targetPkg, "v", "tv", depth + 1);
      if !elem.Done? {
        return Panicked;
      }
    }
  }

  /**
   * The check transformObject makes before its template runs: pairs the
   * fields, then requires every pair to have the same kind; the first
   * incompatible pair met (in map order) is reported.
   */
  method ObjectCheck(source: map<string, Attribute>, target: map<string, Attribute>, targetPkg: string, targetType: string, sctx: string, tctx: string, depth: int, ghost bound: DataType)
    returns (r: Outcome<Generated>)
    requires forall n :: n in source ==> source[n] < bound
    ensures !r.Panicked?
    ensures r.Done? ==> (r.value.ObjectTemplate? && r.value == ObjectTemplate(r.value.mapping, targetPkg, targetType, sctx, tctx, depth)
      && IsMapping(source, target, r.value.mapping)
      && (forall s :: s in r.value.mapping ==> KindOf(source[s].typ) == KindOf(target[r.value.mapping[s]].typ)))
    ensures !WellFormed(source) || !WellFormed(target) ==> r.Failed? && r.error.MissingKeyValue?
    ensures r.Failed? && WellFormed(source) && WellFormed(target) ==>
      r.error.IncompatibleFields? && r.error.sctx == sctx && r.error.tctx == tctx
      && exists s, t :: s in source && t in target && MapKey(s, source[s]) == MapKey(t, target[t])
           && r.error.source == source[s].typ && r.error.target == target[t].typ
           && KindOf(source[s].typ) != KindOf(target[t].typ)
    ensures FieldsRender(source, target, true, bound) ==> r.Done?
  {
    var mapping := ComputeMapping(source, target, sctx, tctx);
    if mapping.Err? {
      return Failed(mapping.error);
    }
    var m := mapping.value;
    var mismatch := FirstMismatch(source, target, m);
    if mismatch.Some? {
      var s := mismatch.value;
      assert MapKey(s, source[s]) == MapKey(m[s], target[m[s]]);
      PairNotRendered(source, target, bound, s, m[s]);
      return Failed(IncompatibleFields(sctx, tctx, source[s].typ, target[m[s]].typ));
    }
    return Done(ObjectTemplate(m, targetPkg, targetType, sctx, tctx, depth));
  }

  /**
   * transformObject: the check, then the template, which transforms each
   * pair of fields; an error there makes RunTemplate panic. `bound` is a
   * type the source fields belong to.
   */
  method TransformObject(source: map<string, Attribute>, target: map<string, Attribute>, targetPkg: string, targetType: string, sctx: string, tctx: string, depth: int, ghost bound: DataType)
    returns (r: Outcome<Generated>)
    requires forall n :: n in source ==> source[n] < bound
    ensures r.Done? ==> (r.value.ObjectTemplate? && r.value == ObjectTemplate(r.value.mapping, targetPkg, targetType, sctx, tctx, depth)
      && IsMapping(source, target, r.value.mapping)
      && (forall s :: s in r.value.mapping ==> KindOf(source[s].typ) == KindOf(target[r.value.mapping[s]].typ)))
    ensures !WellFormed(source) || !WellFormed(target) ==> r.Failed? && r.error.MissingKeyValue?
    ensures r.Failed? && WellFormed(source) && WellFormed(target) ==>
      r.error.IncompatibleFields? && r.error.sctx == sctx && r.error.tctx == tctx
      && exists s, t :: s in source && t in target && MapKey(s, source[s]) == MapKey(t, target[t])
           && r.error.source == source[s].typ && r.error.target == target[t].typ
           && KindOf(source[s].typ) != KindOf(target[t].typ)
    ensures FieldsRender(source, target, true, bound) ==> r.Done?
    ensures r.Done? ==> FieldsRender(source, target, false, bound)
    decreases bound, 1
  {
    r := ObjectCheck(source, target, targetPkg, targetType, sctx, tctx, depth, bound);
    if r.Done? {
      var m := r.value.mapping;
      var rendered := TransformFields(source, target, m, targetPkg, sctx, tctx, depth, bound);
      if !rendered {
        ghost var s :| s in m && !Renders(source[s].typ, target[m[s]].typ, true);
        PairNotRendered(source, target, bound, s, m[s]);
        return Panicked;
      }
      MappedFieldsRender(source, target, m, bound);
    }
  }

  /**
   * The template of transformObject, one pair at a time (Go ranges over the
   * pairs in key order; the order does not change whether all render).
   * For a pair of equal kinds the template's dispatch (array, hash, object,
   * else an assignment) is transformAttribute's.
   */
  method TransformFields(source: map<string, Attribute>, target: map<string, Attribute>, m: map<string, string>,
                         targetPkg: string, sctx: string, tctx: string, depth: int, ghost bound: DataType)
    returns (rendered: bool)
    requires forall n :: n in source ==> source[n] < bound
    requires forall s :: s in m ==> s in source && m[s] in target
    ensures rendered ==> forall s :: s in m ==> Renders(source[s].typ, target[m[s]].typ, false)
    ensures !rendered ==> exists s :: s in m && !Renders(source[s].typ, target[m[s]].typ, true)
    decreases bound, 0
  {
    var rest := m.Keys;
    while rest != {}
      invariant rest <= m.Keys
      invariant forall s :: s in m && s !in rest ==> Renders(source[s].typ, target[m[s]].typ, false)
      decreases |rest|
    {
      var s :| s in rest;
      var sname := Identifiers.Jsify(s, true);
      var tname := Identifiers.Jsify(m[s], true);
      var field := TransformAttribute(source[s], target[m[s]], targetPkg, sctx + "." + sname, tctx + "." + tname, depth);
      if !field.Done? {
        return false;
      }
      rest := rest - {s};
    }
    return true;
  }

  /** One pair of fields with the same key that does not render, for every pairing, stops the whole object from rendering. */
  lemma PairNotRendered(source: map<string, Attribute>, target: map<string, Attribute>, bound: DataType, s: string, t: string)
    requires forall n :: n in source ==> source[n] < bound
    requires s in source && t in target && MapKey(s, source[s]) == MapKey(t, target[t])
    requires !Renders(source[s].typ, target[t].typ, true)
    ensures !FieldsRender(source, target, true, bound)
  {
  }

  /** Pairs of a mapping that all render, each for some pairing, make every key's fields render for some pairing. */
  lemma MappedFieldsRender(source: map<string, Attribute>, target: map<string, Attribute>, m: map<string, string>, bound: DataType)
    requires forall n :: n in source ==> source[n] < bound
    requires WellFormed(source) && WellFormed(target) && IsMapping(source, target, m)
    requires forall s :: s in m ==> Renders(source[s].typ, target[m[s]].typ, false)
    ensures FieldsRender(source, target, false, bound)
  {
    forall a, b | a in source && b in target && MapKey(a, source[a]) == MapKey(b, target[b])
      ensures exists s', t' :: (s' in source && t' in target
        && MapKey(s', source[s']) == MapKey(a, source[a]) && MapKey(t', target[t']) == MapKey(a, source[a])
        && Renders(source[s'].typ, target[t'].typ, false))
    {
      var s' :| s' in m && MapKey(s', source[s']) == MapKey(a, source[a]);
      assert Renders(source[s'].typ, target[m[s']].typ, false);
    }
  }

  /** The loop of transformObject: a paired field whose kind differs, if any. */
  method FirstMismatch(source: map<string, Attribute>, target: map<string, Attribute>, m: map<string, string>)
    returns (r: Option<string>)
    requires forall s :: s in m ==> s in source && m[s] in target
    ensures r.None? ==> forall s :: s in m ==> KindOf(source[s].typ) == KindOf(target[m[s]].typ)
    ensures r.Some? ==> r.value in m && KindOf(source[r.value].typ) != KindOf(target[m[r.value]].typ)
  {
    var rest := m.Keys;
    while rest != {}
      invariant rest <= m.Keys
      invariant forall s :: s in m && s !in rest ==> KindOf(source[s].typ) == KindOf(target[m[s]].typ)
      decreases |rest|
    {
      var s :| s in rest;
      if KindOf(source[s].typ) != KindOf(target[m[s]].typ) {
        return Some(s);
      }
      rest := rest - {s};
    }
    return None;
  }

  /**
   * transformAttribute: the kinds must agree; arrays, hashes and objects
   * are handed to their own transform, anything else is one assignment.
   */
  method TransformAttribute(source: Attribute, target: Attribute, targetPkg: string, sctx: string, tctx: string, depth: int)
    returns (r: Outcome<Generated>)
    ensures KindOf(source.typ) != KindOf(target.typ) ==>
      r == Failed(IncompatibleAttributes(sctx, tctx, source.typ, target.typ))
    ensures Renders(source.typ, target.typ, true) ==> r.Done?
    ensures r.Done? ==> Renders(source.typ, target.typ, false)
    ensures KindOf(source.typ) == KindOf(target.typ) && IsArray(source.typ) ==>
      Settles(r, ArrayCheck(ToArray(source.typ), ToArray(target.typ), targetPkg, sctx, tctx, depth))
    ensures KindOf(source.typ) == KindOf(target.typ) && !IsArray(source.typ) && IsHash(source.typ) ==>
      Settles(r, HashCheck(ToHash(source.typ), ToHash(target.typ), targetPkg, sctx, tctx, depth))
    ensures KindOf(source.typ) == KindOf(target.typ) && !IsArray(source.typ) && !IsHash(source.typ) && IsObject(source.typ) ==>
      (r.Done? ==> (r.value.ObjectTemplate? && r.value.targetType == TypeName(target)
        && IsMapping(ToObject(source.typ), ToObject(target.typ), r.value.mapping)))
    ensures KindOf(source.typ) == KindOf(target.typ) && !IsArray(source.typ) && !IsHash(source.typ) && !IsObject(source.typ) ==>
      r == Done(Assignment(depth, tctx, sctx))
    decreases source.typ, 2
  {
    if KindOf(source.typ) != KindOf(target.typ) {
      return Failed(IncompatibleAttributes(sctx, tctx, source.typ, target.typ));
    }
    if IsArray(source.typ) {
      ToArraySmaller(source.typ);
      r := TransformArray(ToArray(source.typ), ToArray(target.typ), targetPkg, sctx, tctx, depth, source.typ);
    } else if IsHash(source.typ) {
      ToHashSmaller(source.typ);
      r := TransformHash(ToHash(source.typ), ToHash(target.typ), targetPkg, sctx, tctx, depth, source.typ);
    } else if IsObject(source.typ) {
      ToObjectSmaller(source.typ);
      r := TransformObject(ToObject(source.typ), ToObject(target.typ), targetPkg, TypeName(target), sctx, tctx, depth, source.typ);
    } else {
      r := Done(Assignment(depth, tctx, sctx));
    }
  }

  /**
   * The reference to the target type in the generated function: JsTypeRef,
   * qualified by the target package when it is a pointer.
   */
  function TargetRef(target: DataType, targetPkg: string): (r: string)
  {
    var t := JsTypeRef(target, 0, false);
    if |t| > 0 && t[0] == '*' && |targetPkg| > 0 then "*" + targetPkg + "." + t[1..] else t
  }

  /** The container switch of JsTypeTransform: the target is the same kind of container as the source. */
  predicate SameContainer(source: DataType, target: DataType) {
    if IsObject(source) then IsObject(target)
    else if IsArray(source) then IsArray(target)
    else if IsHash(source) then IsHash(target)
    else false
  }

  /**
   * JsTypeTransform: the source must be an object, array or hash (a
   * primitive panics) and the target the same kind of container; then
   * the container is transformed at depth 1.
   */
  method JsTypeTransform(source: DataType, target: DataType, targetPkg: string, funcName: string)
    returns (r: Outcome<Generated>)
    requires source.UserType? && target.UserType?
    ensures IsObject(source) && !IsObject(target) ==> r == Failed(NotSameContainer(source, target))
    ensures !IsObject(source) && IsArray(source) && !IsArray(target) ==> r == Failed(NotSameContainer(source, target))
    ensures !IsObject(source) && !IsArray(source) && IsHash(source) && !IsHash(target) ==> r == Failed(NotSameContainer(source, target))
    ensures !IsObject(source) && !IsArray(source) && !IsHash(source) ==> r.Panicked?
    ensures SameContainer(source, target) && Renders(source, target, true) ==> r.Done?
    ensures r.Done? ==> SameContainer(source, target) && Renders(source, target, false)
    ensures r.Done? ==> (r.value.FunctionTemplate? && r.value.name == funcName
      && r.value.targetRef == TargetRef(target, targetPkg))
  {
    ContainersExclusive(source);
    var impl: Outcome<Generated>;
    if IsObject(source) {
      if !IsObject(target) {
        return Failed(NotSameContainer(source, target));
      }
      ToObjectSmaller(source);
      impl := TransformObject(ToObject(source), ToObject(target), targetPkg, target.typeName, "source", "target", 1, source);
    } else if IsArray(source) {
      if !IsArray(target) {
        return Failed(NotSameContainer(source, target));
      }
      ToArraySmaller(source);
      impl := TransformArray(ToArray(source), ToArray(target), targetPkg, "source", "target", 1, source);
    } else if IsHash(source) {
      if !IsHash(target) {
        return Failed(NotSameContainer(source, target));
      }
      ToHashSmaller(source);
      impl := TransformHash(ToHash(source), ToHash(target), targetPkg, "source", "target", 1, source);
    } else {
      // cannot transform primitive types
      return Panicked;
    }
    if !impl.Done? {
      return impl;
    }
    r := Done(FunctionTemplate(funcName, TargetRef(target, targetPkg), targetPkg, impl.value));
  }

  // ---------------------------------------------------------------------
  // Properties
  // ---------------------------------------------------------------------

  /** Arrays and hashes behind matching container types always exist: the checks never panic there. */
  lemma ContainersPresent(t: DataType)
    ensures IsArray(t) <==> ToArray(t).Some?
    ensures IsHash(t) <==> ToHash(t).Some?
  {
  }

  /**
   * Objects with one field `name` that is an array on both sides, with
   * elements of different kinds (say `tags`, strings in the source and
   * integers in the target): the kinds of the pair agree, so no error is
   * returned, but the template's element transform fails and RunTemplate
   * panics.
   */
  method NestedMismatchPanics(name: string, sourceElem: Attribute, targetElem: Attribute) returns (r: Outcome<Generated>)
    requires KindOf(sourceElem.typ) != KindOf(targetElem.typ)
    ensures r.Panicked?
  {
    var sa := Attribute(Array(sourceElem), "", map[]);
    var ta := Attribute(Array(targetElem), "", map[]);
    var source, target := map[name := sa], map[name := ta];
    assert WellFormed(source) && WellFormed(target);
    assert forall s, t :: s in source && t in target ==> KindOf(source[s].typ) == KindOf(target[t].typ);
    assert forall s, t :: s in source && t in target ==> !Renders(source[s].typ, target[t].typ, false);
    assert name in source && name in target && MapKey(name, source[name]) == MapKey(name, target[name]);
    r := TransformObject(source, target, "", "Target", "source", "target", 1, Object(source));
  }

  /** A type is at most one of object, array and hash. */
  lemma ContainersExclusive(t: DataType)
    ensures !(IsObject(t) && IsArray(t)) && !(IsObject(t) && IsHash(t)) && !(IsArray(t) && IsHash(t))
  {
  }

  /**
   * A pointer reference is qualified by the package: the result starts with
   * "*pkg." exactly when the target is a non-error object and the package is given.
   */
  lemma TargetRefQualified(target: DataType, targetPkg: string)
    requires |targetPkg| > 0 && IsObject(target) && !IsErrorMedia(target)
    ensures TargetRef(target, targetPkg) == "*" + targetPkg + "." + JsTypeName(target, 0, false)
  {
    JsTypeRefStar(target, 0, false);
  }
}
