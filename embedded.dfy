/** `validate_embedded`, the walk `main` runs over the report read back
    after serialisation: every string stored under a `config` or `filters`
    key, anywhere in the tree, must parse. */
module Embedded {
  import opened Json

  /** The keys whose string values hold serialised sub-documents. */
  predicate IsBlobKey(key: string)
  {
    key == "config" || key == "filters"
  }

  /** `validate_embedded(v)` returns without raising. A dict's entries are
      checked one by one: a text under a blob key must parse, any other
      value is walked; a list's items are walked; anything else passes. The
      walk never enters a text, so it does not look inside the blobs it
      parses. */
  predicate ValidateEmbedded(v: Value)
    ensures !v.Obj? && !v.Arr? ==> ValidateEmbedded(v)
    ensures v.Obj? && (exists key | key in v.fields :: IsBlobKey(key) && v.fields[key] == Doc(Unparseable)) ==> !ValidateEmbedded(v)
    decreases v
  {
    match v
    case Obj(fs) =>
      forall key | key in fs ::
        if IsBlobKey(key) && IsText(fs[key]) then Loads(fs[key]).Loaded? else ValidateEmbedded(fs[key])
    case Arr(xs) => forall k | 0 <= k < |xs| :: ValidateEmbedded(xs[k])
    case _ => true
  }

  /** A step from a dict to one of its values, or from a list to one of its items. */
  datatype Step = Key(key: string) | Index(index: nat)

  /** Following `path` from `v` ends at a text stored under a blob key that
      does not parse. */
  predicate BadBlobAt(v: Value, path: seq<Step>)
    decreases path
  {
    if path == [] then false
    else
      match path[0]
      case Key(key) =>
        && v.Obj? && key in v.fields
        && if |path| == 1 then IsBlobKey(key) && IsText(v.fields[key]) && !Loads(v.fields[key]).Loaded?
           else BadBlobAt(v.fields[key], path[1..])
      case Index(k) =>
        v.Arr? && k < |v.items| && BadBlobAt(v.items[k], path[1..])
  }

  /** A bad blob below a text: none, since a path cannot enter a text. */
  lemma NoBlobInsideText(v: Value, path: seq<Step>)
    requires IsText(v)
    ensures !BadBlobAt(v, path)
  {
  }

  /** A bad blob makes the walk fail. */
  lemma {:induction false} BadBlobFails(v: Value, path: seq<Step>)
    requires BadBlobAt(v, path)
    ensures !ValidateEmbedded(v)
    decreases path
  {
    match path[0]
    case Key(key) =>
      if |path| > 1 {
        var child := v.fields[key];
        if IsBlobKey(key) && IsText(child) {
          NoBlobInsideText(child, path[1..]);
        } else {
          BadBlobFails(child, path[1..]);
        }
      }
    case Index(k) =>
      BadBlobFails(v.items[k], path[1..]);
  }

  /** A failing walk has a bad blob to show for it. */
  lemma {:induction false} FailureHasBadBlob(v: Value) returns (path: seq<Step>)
    requires !ValidateEmbedded(v)
    ensures BadBlobAt(v, path)
    decreases v
  {
    match v
    case Obj(fs) =>
      var key :| key in fs && !(if IsBlobKey(key) && IsText(fs[key]) then Loads(fs[key]).Loaded? else ValidateEmbedded(fs[key]));
      if IsBlobKey(key) && IsText(fs[key]) {
        path := [Key(key)];
      } else {
        var rest := FailureHasBadBlob(fs[key]);
        path := [Key(key)] + rest;
        assert path[1..] == rest;
      }
    case Arr(xs) =>
      var k :| 0 <= k < |xs| && !ValidateEmbedded(xs[k]);
      var rest := FailureHasBadBlob(xs[k]);
      path := [Index(k)] + rest;
      assert path[1..] == rest;
  }

  /** `validate_embedded` raises exactly when some string stored under a
      `config` or `filters` key, reachable without entering a string, does
      not parse. */
  lemma ValidateEmbeddedMeaning(v: Value)
    ensures ValidateEmbedded(v) <==> !exists path :: BadBlobAt(v, path)
  {
    if ValidateEmbedded(v) {
      forall path
        ensures !BadBlobAt(v, path)
      {
        if BadBlobAt(v, path) {
          BadBlobFails(v, path);
        }
      }
    } else {
      var path := FailureHasBadBlob(v);
      assert exists p :: BadBlobAt(v, p);
    }
  }
}
