/** The structured content and locations of a tool, kept within a byte budget. */
module StructuredState {

  type Value = string

  datatype Update = Unchanged | Clear | Set(values: seq<Value>) | Append(values: seq<Value>)

  function Updated(current: seq<Value>, update: Update): seq<Value> {
    match update
    case Unchanged => current
    case Clear => []
    case Set(values) => values
    case Append(values) => current + values
  }

  predicate Replaces(update: Update) {
    update.Set? || update.Clear?
  }

  /** The state after n elements are given up: locations from the end, then content from the end. */
  function Cut(content: seq<Value>, locations: seq<Value>, n: nat): (seq<Value>, seq<Value>)
    requires n <= |content| + |locations|
  {
    if n <= |locations| then (content, locations[..|locations| - n])
    else (content[..|content| + |locations| - n], [])
  }

  /** The tool's fields, changed in place by every update. */
  class ToolState {
    var content: seq<Value>
    var locations: seq<Value>
    var truncated: bool

    constructor ()
      ensures content == [] && locations == [] && !truncated
    {
      content, locations, truncated := [], [], false;
    }

    /** Apply both updates, then give up as few elements as fit the budget; `size` measures the pair when
        serialised. The flag tells whether anything was ever given up since the last replacement, and the
        result whether anything changed. */
    method ApplyUpdates(contentUpdate: Update, locationsUpdate: Update, size: (seq<Value>, seq<Value>) -> nat,
        maxBytes: nat)
      returns (changed: bool, ghost given: nat)
      requires size([], []) <= maxBytes
      modifies this
      ensures var c, l := Updated(old(content), contentUpdate), Updated(old(locations), locationsUpdate);
              && given <= |c| + |l|
              && (content, locations) == Cut(c, l, given)
              && size(content, locations) <= maxBytes
              && (forall n :: 0 <= n < given ==> var cut := Cut(c, l, n); size(cut.0, cut.1) > maxBytes)
              && (truncated <==>
                    given > 0 || (old(truncated) && !Replaces(contentUpdate) && !Replaces(locationsUpdate)))
      ensures changed <==> content != old(content) || locations != old(locations) || truncated != old(truncated)
    {
      var before := (content, locations, truncated);
      content := Updated(content, contentUpdate);
      locations := Updated(locations, locationsUpdate);
      ghost var c, l := content, locations;
      if Replaces(contentUpdate) || Replaces(locationsUpdate) {
        truncated := false;
      }
      ghost var flag := truncated;
      given := 0;
      assert l[..|l|] == l;
      while size(content, locations) > maxBytes
        invariant given <= |c| + |l| && (content, locations) == Cut(c, l, given)
        invariant forall n :: 0 <= n < given ==> var cut := Cut(c, l, n); size(cut.0, cut.1) > maxBytes
        invariant truncated == (flag || given > 0)
        decreases |content| + |locations|
      {
        assert |content| + |locations| == |c| + |l| - given;
        assert content == [] && locations == [] ==> size(content, locations) <= maxBytes;
        CutMore(c, l, given);
        if |locations| == 0 {
          content := content[..|content| - 1];
        } else {
          locations := locations[..|locations| - 1];
        }
        truncated := true;
        given := given + 1;
      }
      changed := before != (content, locations, truncated);
    }
  }

  /** Giving up n elements leaves a prefix of each list, and content is touched only when no location is left. */
  lemma CutIsPrefix(content: seq<Value>, locations: seq<Value>, n: nat)
    requires n <= |content| + |locations|
    ensures var cut := Cut(content, locations, n);
            && cut.0 <= content && cut.1 <= locations && |cut.0| + |cut.1| == |content| + |locations| - n
            && (cut.0 != content ==> cut.1 == [])
  {
  }

  lemma CutMore(content: seq<Value>, locations: seq<Value>, n: nat)
    requires n < |content| + |locations|
    ensures var cut, more := Cut(content, locations, n), Cut(content, locations, n + 1);
            more == if |cut.1| == 0 then (cut.0[..|cut.0| - 1], cut.1) else (cut.0, cut.1[..|cut.1| - 1])
  {
    var l, c := |locations|, |content|;
    if n < l {
      assert locations[..l - n][..l - n - 1] == locations[..l - n - 1];
    } else if n == l {
      assert locations[..0] == [];
    } else {
      assert content[..c + l - n][..c + l - n - 1] == content[..c + l - n - 1];
    }
  }

  // ----- what a sequence of updates says -----

  /** The list after the updates, when nothing is given up. */
  function Fold(updates: seq<Update>): seq<Value> {
    if updates == [] then [] else Updated(Fold(updates[..|updates| - 1]), updates[|updates| - 1])
  }

  /** All values that the updates carry, in order. */
  function Carried(updates: seq<Update>): seq<Value> {
    if updates == [] then []
    else
      var last := updates[|updates| - 1];
      Carried(updates[..|updates| - 1]) + if last.Set? || last.Append? then last.values else []
  }

  /** The updates hold no replacement after the first k. */
  predicate NoneReplaces(updates: seq<Update>, k: nat) {
    forall j :: k <= j < |updates| ==> !Replaces(updates[j])
  }

  /** The list holds, in order, the values carried since the last replacement, or all if there was none. */
  lemma {:induction false} FoldIsCarried(updates: seq<Update>, k: nat)
    requires k <= |updates| && NoneReplaces(updates, k) && (k > 0 ==> Replaces(updates[k - 1]))
    ensures Fold(updates) == Carried(updates[if k > 0 then k - 1 else 0..])
    decreases |updates|
  {
    if updates == [] {
    } else {
      var front, last := updates[..|updates| - 1], updates[|updates| - 1];
      var from := if k > 0 then k - 1 else 0;
      assert updates[from..][..|updates| - from - 1] == front[from..];
      if k == |updates| {
        assert front[from..] == [];
      } else {
        FoldIsCarried(front, k);
      }
    }
  }
}
