/**
 * The mapping merge of `TransportSchemaUpdateAction`: a newly derived mapping
 * of a partitioned table is merged into every mapping of the table's index
 * template.  Nested objects merge recursively, new keys are added, equal
 * values are left alone, a boolean `dynamic` flag may be replaced by its
 * string spelling, conflicts inside an entry of `default._meta.version` are
 * skipped, and any other conflict fails the whole update.
 */
module SchemaUpdate {
  import opened Wrappers
  import JavaText

  /** A parsed JSON mapping value: what `parseMapping` produces. */
  datatype Value =
    | Null
    | Bool(b: bool)
    | Str(s: string)
    | Num(n: int)
    | List(items: seq<Value>)
    | Obj(fields: map<string, Value>)

  type Mapping = map<string, Value>

  /** `IndexMappings.VERSION_STRING`, the key holding version metadata. */
  const VERSION_STRING: string := "version"

  /** What `mergeIntoSource` throws. */
  datatype MergeError =
    /** `IllegalArgumentException("Can't overwrite " + fqKey + "=" + source + " with " + update)` */
    | CannotOverwrite(fqKey: string, sourceValue: Value, updateValue: Value)
    /** `sourceValue.equals(...)` on a key whose source value is JSON null */
    | NullPointer

  /** The dotted key of an error message: `String.join(".", path) + '.' + key`. */
  function FqKey(path: seq<string>, key: string): (r: string)
    ensures JavaText.EndsWith(r, "." + key)
  {
    JavaText.Join(".", path) + "." + key
  }

  /** `isUpdateIgnored`: the merged object lies inside an entry of `default._meta.<version>`. */
  function IsUpdateIgnored(path: seq<string>): (r: bool)
    ensures r <==> (|path| >= 4 && path[0] == "default" && path[1] == "_meta" && path[2] == VERSION_STRING)
  {
    |path| > 3 && path[..3] == ["default", "_meta", VERSION_STRING]
  }

  /** `updateAllowed`: a boolean `dynamic` flag may become the same flag as a string. */
  function UpdateAllowed(key: string, sourceValue: Value, updateValue: Value): (r: bool)
    ensures r <==> key == "dynamic" && (sourceValue, updateValue) in {(Bool(true), Str("true")), (Bool(false), Str("false"))}
  {
    sourceValue.Bool? && updateValue.Str? && key == "dynamic"
    && JavaText.BoolToString(sourceValue.b) == updateValue.s
  }

  /**
   * `isUpdateIgnored` tests the path of the object being merged, not of the
   * key.  So the entries of `default._meta.version` themselves are still
   * compared; only what lies inside one of those entries (paths with more
   * than three parts, such as `default._meta.version.created.*`) is not.
   */
  lemma IgnoredSubtree(path: seq<string>, key: string)
    ensures !IsUpdateIgnored(["default", "_meta", VERSION_STRING])
    ensures IsUpdateIgnored(["default", "_meta", VERSION_STRING, key])
    ensures IsUpdateIgnored(path) ==> IsUpdateIgnored(path + [key])
  {
  }

  // ---------------------------------------------------------------------
  // Reference definition of the merge

  /**
   * The merged value of a key present in both the source and the update.
   * A conflict leaves the source value in place (the error is reported by
   * `HasConflict`).
   */
  function MergedValue(sourceValue: Value, updateValue: Value, key: string, path: seq<string>): Value
    decreases updateValue, 1
  {
    if sourceValue.Obj? && updateValue.Obj? then
      Obj(Merged(sourceValue.fields, updateValue.fields, path + [key]))
    else if UpdateAllowed(key, sourceValue, updateValue) then updateValue
    else sourceValue
  }

  /** The source after merging `update` into it at `path`. */
  function Merged(source: Mapping, update: Mapping, path: seq<string>): Mapping
    decreases Obj(update), 0
  {
    map k | k in source.Keys + update.Keys ::
      if k !in update then source[k]
      else if k !in source then update[k]
      else MergedValue(source[k], update[k], k, path)
  }

  /** Merging `updateValue` into `sourceValue` under `key` fails. */
  predicate ValueHasConflict(sourceValue: Value, updateValue: Value, key: string, path: seq<string>)
    decreases updateValue, 1
  {
    if sourceValue.Obj? && updateValue.Obj? then
      HasConflict(sourceValue.fields, updateValue.fields, path + [key])
    else
      !UpdateAllowed(key, sourceValue, updateValue) && !IsUpdateIgnored(path)
      && (sourceValue.Null? || sourceValue != updateValue)
  }

  /** Merging `update` into `source` at `path` fails. */
  predicate HasConflict(source: Mapping, update: Mapping, path: seq<string>)
    decreases Obj(update), 0
  {
    exists k :: k in update && k in source && ValueHasConflict(source[k], update[k], k, path)
  }

  /** `e` is an error that merging `updateValue` into `sourceValue` under `key` can raise. */
  predicate IsValueConflict(sourceValue: Value, updateValue: Value, key: string, path: seq<string>, e: MergeError)
    decreases updateValue, 1
  {
    if sourceValue.Obj? && updateValue.Obj? then
      IsConflict(sourceValue.fields, updateValue.fields, path + [key], e)
    else
      !UpdateAllowed(key, sourceValue, updateValue) && !IsUpdateIgnored(path)
      && if sourceValue.Null? then e == NullPointer
         else sourceValue != updateValue && e == CannotOverwrite(FqKey(path, key), sourceValue, updateValue)
  }

  /** `e` is an error that merging `update` into `source` at `path` can raise. */
  predicate IsConflict(source: Mapping, update: Mapping, path: seq<string>, e: MergeError)
    decreases Obj(update), 0
  {
    exists k :: k in update && k in source && IsValueConflict(source[k], update[k], k, path, e)
  }

  // ---------------------------------------------------------------------
  // The merge as the source runs it

  /**
   * The state of the loop of `mergeIntoSource` while the keys in `pending`
   * are still to be visited: every visited key holds its merged value and
   * merged without conflict, every other key is as in the source.
   */
  ghost predicate MergeLoopInv(source: Mapping, update: Mapping, path: seq<string>, src: Mapping, pending: set<string>) {
    && pending <= update.Keys
    && src.Keys == source.Keys + (update.Keys - pending)
    && (forall k :: k in src ==>
          src[k] == if k in update && k !in pending then Merged(source, update, path)[k] else source[k])
    && (forall k :: k in update && k !in pending && k in source ==> !ValueHasConflict(source[k], update[k], k, path))
  }

  /** Visiting one more key keeps the loop state. */
  lemma MergeLoopStep(source: Mapping, update: Mapping, path: seq<string>, src: Mapping, pending: set<string>,
                      key: string, v: Value)
    requires MergeLoopInv(source, update, path, src, pending)
    requires key in pending
    requires key in src ==> v == MergedValue(src[key], update[key], key, path)
                            && !ValueHasConflict(src[key], update[key], key, path)
    requires key !in src ==> v == update[key]
    ensures MergeLoopInv(source, update, path, src[key := v], pending - {key})
  {
  }

  /** With nothing left to visit, the loop has built the merged mapping without conflict. */
  lemma MergeLoopDone(source: Mapping, update: Mapping, path: seq<string>, src: Mapping)
    requires MergeLoopInv(source, update, path, src, {})
    ensures src == Merged(source, update, path)
    ensures !HasConflict(source, update, path)
  {
  }

  /**
   * `mergeIntoSource(source, mappingUpdate, path)`.  The loop visits the
   * update's entries in an unspecified order (a `HashMap`'s), puts new and
   * allowed values into the source, recurses into nested objects and stops
   * with the first conflict it meets.
   */
  method MergeIntoSource(source: Mapping, update: Mapping, path: seq<string>) returns (r: Result<Mapping, MergeError>)
    ensures r.Ok? <==> !HasConflict(source, update, path)
    ensures r.Ok? ==> r.value == Merged(source, update, path)
    ensures r.Err? ==> IsConflict(source, update, path, r.error)
    decreases Obj(update), 0
  {
    var src := source;
    var pending := update.Keys;
    while pending != {}
      invariant MergeLoopInv(source, update, path, src, pending)
      decreases pending
    {
      var key :| key in pending;
      var updateValue := update[key];
      if key in src {
        var merged := MergeEntry(src[key], updateValue, key, path);
        if merged.Err? {
          assert src[key] == source[key];
          assert ValueHasConflict(source[key], update[key], key, path);
          return Err(merged.error);
        }
        MergeLoopStep(source, update, path, src, pending, key, merged.value);
        src := src[key := merged.value];
      } else {
        MergeLoopStep(source, update, path, src, pending, key, updateValue);
        src := src[key := updateValue];
      }
      pending := pending - {key};
    }
    MergeLoopDone(source, update, path, src);
    return Ok(src);
  }

  /**
   * The body of the loop of `mergeIntoSource` for a key the source already
   * has: recurse into two objects, take an allowed update, and otherwise
   * fail when the path is not ignored and the values differ (or the source
   * value is null, which `equals` cannot be called on).
   */
  method MergeEntry(sourceValue: Value, updateValue: Value, key: string, path: seq<string>)
    returns (r: Result<Value, MergeError>)
    ensures r.Ok? <==> !ValueHasConflict(sourceValue, updateValue, key, path)
    ensures r.Ok? ==> r.value == MergedValue(sourceValue, updateValue, key, path)
    ensures r.Err? ==> IsValueConflict(sourceValue, updateValue, key, path, r.error)
    decreases updateValue, 1
  {
    if sourceValue.Obj? && updateValue.Obj? {
      var sub := MergeIntoSource(sourceValue.fields, updateValue.fields, path + [key]);
      if sub.Err? {
        return Err(sub.error);
      }
      return Ok(Obj(sub.value));
    } else if UpdateAllowed(key, sourceValue, updateValue) {
      return Ok(updateValue);
    } else if !IsUpdateIgnored(path) {
      if sourceValue.Null? {
        return Err(NullPointer);
      } else if sourceValue != updateValue {
        return Err(CannotOverwrite(FqKey(path, key), sourceValue, updateValue));
      }
    }
    return Ok(sourceValue);
  }

  /** `mergeIntoSource(source, mappingUpdate)`: the merge at the top, with an empty path. */
  method MergeMapping(source: Mapping, update: Mapping) returns (r: Result<Mapping, MergeError>)
    ensures r.Ok? <==> !HasConflict(source, update, [])
    ensures r.Ok? ==> r.value == Merged(source, update, [])
    ensures r.Err? ==> IsConflict(source, update, [], r.error)
  {
    r := MergeIntoSource(source, update, []);
  }

  // ---------------------------------------------------------------------
  // Properties of the merge

  /**
   * The merged mapping has the keys of both; keys only the source has keep
   * their value, keys only the update has get the update's value.
   */
  lemma MergedKeys(source: Mapping, update: Mapping, path: seq<string>)
    ensures Merged(source, update, path).Keys == source.Keys + update.Keys
    ensures forall k :: k in source && k !in update ==> Merged(source, update, path)[k] == source[k]
    ensures forall k :: k in update && k !in source ==> Merged(source, update, path)[k] == update[k]
  {
  }

  /** Every error the merge can raise is a conflict it detects. */
  lemma {:induction false} ConflictIsDetected(source: Mapping, update: Mapping, path: seq<string>, e: MergeError)
    requires IsConflict(source, update, path, e)
    ensures HasConflict(source, update, path)
    decreases Obj(update)
  {
    var k :| k in update && k in source && IsValueConflict(source[k], update[k], k, path, e);
    if source[k].Obj? && update[k].Obj? {
      ConflictIsDetected(source[k].fields, update[k].fields, path + [k], e);
    }
    assert ValueHasConflict(source[k], update[k], k, path);
  }

  /** `update` contains no JSON null anywhere in its object structure. */
  predicate NullFree(update: Mapping)
    decreases Obj(update)
  {
    forall k :: k in update ==> update[k] != Null && (update[k].Obj? ==> NullFree(update[k].fields))
  }

  /** Merging a mapping into itself changes nothing. */
  lemma {:induction false} MergeSelfUnchanged(m: Mapping, path: seq<string>)
    ensures Merged(m, m, path) == m
    decreases Obj(m)
  {
    forall k | k in m ensures MergedValue(m[k], m[k], k, path) == m[k] {
      if m[k].Obj? {
        MergeSelfUnchanged(m[k].fields, path + [k]);
      }
    }
  }

  /** Merging a null-free mapping into itself succeeds. */
  lemma {:induction false} MergeSelfSucceeds(m: Mapping, path: seq<string>)
    requires NullFree(m)
    ensures !HasConflict(m, m, path)
    decreases Obj(m)
  {
    forall k | k in m ensures !ValueHasConflict(m[k], m[k], k, path) {
      if m[k].Obj? {
        MergeSelfSucceeds(m[k].fields, path + [k]);
      }
    }
  }

  /**
   * The merge is idempotent: applying the same update a second time changes
   * nothing, and when the first application succeeded with a null-free
   * update, so does the second.
   */
  lemma {:induction false} MergeIdempotent(source: Mapping, update: Mapping, path: seq<string>)
    ensures Merged(Merged(source, update, path), update, path) == Merged(source, update, path)
    ensures NullFree(update) && !HasConflict(source, update, path) ==>
      !HasConflict(Merged(source, update, path), update, path)
    decreases Obj(update)
  {
    var once := Merged(source, update, path);
    var succeeded := NullFree(update) && !HasConflict(source, update, path);
    forall k | k in update
      ensures MergedValue(once[k], update[k], k, path) == once[k]
      ensures succeeded ==> !ValueHasConflict(once[k], update[k], k, path)
    {
      if k !in source {
        assert once[k] == update[k];
        if update[k].Obj? {
          MergeSelfUnchanged(update[k].fields, path + [k]);
          if succeeded {
            MergeSelfSucceeds(update[k].fields, path + [k]);
          }
        }
      } else if source[k].Obj? && update[k].Obj? {
        var inner := Merged(source[k].fields, update[k].fields, path + [k]);
        assert once[k] == MergedValue(source[k], update[k], k, path) == Obj(inner);
        MergeIdempotent(source[k].fields, update[k].fields, path + [k]);
        if succeeded {
          assert !ValueHasConflict(source[k], update[k], k, path);
        }
      } else {
        assert once[k] == MergedValue(source[k], update[k], k, path);
        if succeeded {
          assert !ValueHasConflict(source[k], update[k], k, path);
        }
      }
    }
    var twice := Merged(once, update, path);
    assert twice.Keys == once.Keys;
    forall k | k in once ensures twice[k] == once[k] {
    }
  }

  /**
   * The source reflects the update: every value of `update` is found at the
   * same place in `result`, except inside an entry of `default._meta.version`
   * (paths with more than three parts), where differences are dropped.
   */
  predicate Reflects(result: Mapping, update: Mapping, path: seq<string>)
    decreases Obj(update)
  {
    forall k :: k in update ==>
      k in result
      && if result[k].Obj? && update[k].Obj? then Reflects(result[k].fields, update[k].fields, path + [k])
         else result[k] == update[k] || IsUpdateIgnored(path)
  }

  /** A mapping reflects itself. */
  lemma {:induction false} ReflectsSelf(m: Mapping, path: seq<string>)
    ensures Reflects(m, m, path)
    decreases Obj(m)
  {
    forall k | k in m && m[k].Obj? ensures Reflects(m[k].fields, m[k].fields, path + [k]) {
      ReflectsSelf(m[k].fields, path + [k]);
    }
  }

  /** After a successful merge the source carries every value of the update. */
  lemma {:induction false} MergeReflectsUpdate(source: Mapping, update: Mapping, path: seq<string>)
    requires !HasConflict(source, update, path)
    ensures Reflects(Merged(source, update, path), update, path)
    decreases Obj(update)
  {
    var result := Merged(source, update, path);
    forall k | k in update && result[k].Obj? && update[k].Obj?
      ensures Reflects(result[k].fields, update[k].fields, path + [k])
    {
      if k in source {
        assert !ValueHasConflict(source[k], update[k], k, path);
        assert result[k] == MergedValue(source[k], update[k], k, path);
        if source[k].Obj? {
          MergeReflectsUpdate(source[k].fields, update[k].fields, path + [k]);
        }
      } else {
        assert result[k] == update[k];
        ReflectsSelf(update[k].fields, path + [k]);
      }
    }
    forall k | k in update && !(result[k].Obj? && update[k].Obj?)
      ensures result[k] == update[k] || IsUpdateIgnored(path)
    {
      if k in source {
        assert !ValueHasConflict(source[k], update[k], k, path);
        assert result[k] == MergedValue(source[k], update[k], k, path);
      }
    }
  }

  /**
   * Inside an entry of `default._meta.version` (a path with more than three
   * parts) a differing leaf value of the update is dropped silently: the source keeps its value and the merge does not fail
   * on that key.
   */
  lemma VersionMetaConflictIgnored(source: Mapping, update: Mapping, path: seq<string>, k: string)
    requires IsUpdateIgnored(path)
    requires k in source && k in update && !(source[k].Obj? && update[k].Obj?)
    requires !UpdateAllowed(k, source[k], update[k])
    ensures Merged(source, update, path)[k] == source[k]
    ensures !ValueHasConflict(source[k], update[k], k, path)
  {
  }

  /** A differing leaf that is a direct entry of `default._meta.version` still fails the merge. */
  lemma VersionEntryCompared(source: Mapping, update: Mapping, k: string)
    requires k in source && k in update && !(source[k].Obj? && update[k].Obj?)
    requires !UpdateAllowed(k, source[k], update[k]) && source[k] != update[k]
    ensures HasConflict(source, update, ["default", "_meta", VERSION_STRING])
  {
    assert ValueHasConflict(source[k], update[k], k, ["default", "_meta", VERSION_STRING]);
  }

  /** A boolean `dynamic` flag is replaced by its string spelling, wherever it sits. */
  lemma DynamicFlagReplaced(source: Mapping, update: Mapping, path: seq<string>, b: bool)
    requires "dynamic" in source && "dynamic" in update
    requires source["dynamic"] == Bool(b) && update["dynamic"] == Str(JavaText.BoolToString(b))
    ensures Merged(source, update, path)["dynamic"] == Str(JavaText.BoolToString(b))
    ensures !ValueHasConflict(source["dynamic"], update["dynamic"], "dynamic", path)
  {
  }

  // ---------------------------------------------------------------------
  // Template update

  /** An index template: its other settings and its mappings by type name. */
  datatype Template = Template(order: int, patterns: seq<string>, mappings: map<string, Mapping>)

  datatype TemplateError =
    /** `ResourceNotFoundException` for a missing template */
    | ResourceNotFound(message: string)
    /** the merge into one of the template's mappings failed */
    | MergeFailed(error: MergeError)

  function MissingTemplateMessage(templateName: string): string {
    "Template \"" + templateName + "\" for partitioned table is missing"
  }

  /** The template with `newMapping` merged into each of its mappings. */
  function TemplateWithMerged(t: Template, newMapping: Mapping): Template {
    t.(mappings := map name | name in t.mappings :: Merged(t.mappings[name], newMapping, []))
  }

  /**
   * Static `updateTemplate`: fails when the template is missing; otherwise
   * merges the new mapping into every mapping of the template and stores the
   * result, leaving every other template as it was.  One failing merge fails
   * the whole update.
   */
  method UpdateTemplate(templates: map<string, Template>, templateName: string, newMapping: Mapping)
    returns (r: Result<map<string, Template>, TemplateError>)
    ensures templateName !in templates ==> r == Err(ResourceNotFound(MissingTemplateMessage(templateName)))
    ensures templateName in templates ==>
      (r.Ok? <==> forall name :: name in templates[templateName].mappings ==>
                    !HasConflict(templates[templateName].mappings[name], newMapping, []))
    ensures r.Ok? ==> r.value == templates[templateName := TemplateWithMerged(templates[templateName], newMapping)]
    ensures r.Err? && templateName in templates ==>
      r.error.MergeFailed? &&
      exists name :: name in templates[templateName].mappings &&
        IsConflict(templates[templateName].mappings[name], newMapping, [], r.error.error)
  {
    if templateName !in templates {
      return Err(ResourceNotFound(MissingTemplateMessage(templateName)));
    }
    var template := templates[templateName];
    var merged: map<string, Mapping> := map[];
    var pending := template.mappings.Keys;
    while pending != {}
      invariant pending <= template.mappings.Keys
      invariant merged.Keys == template.mappings.Keys - pending
      invariant forall name :: name in merged ==>
        !HasConflict(template.mappings[name], newMapping, [])
        && merged[name] == Merged(template.mappings[name], newMapping, [])
      decreases pending
    {
      var name :| name in pending;
      var source := template.mappings[name];
      var result := MergeMapping(source, newMapping);
      if result.Err? {
        return Err(MergeFailed(result.error));
      }
      merged := merged[name := result.value];
      pending := pending - {name};
    }
    assert merged == TemplateWithMerged(template, newMapping).mappings;
    return Ok(templates[templateName := template.(mappings := merged)]);
  }
}
