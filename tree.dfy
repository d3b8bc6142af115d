/**
 * The translation tree every lookup walks: one per language, loaded from the
 * language's JSON file.  A node is a string, an array of strings or an object
 * whose entries are kept in `for...in` order, which fixes the order of every
 * list of key paths computed from the tree.
 */
module TranslationTree {
  import opened Wrappers
  import opened Strings

  /** The closed language set. */
  datatype Lang = En | Tr

  function Code(l: Lang): string {
    match l
    case En => "en"
    case Tr => "tr"
  }

  /** `isValidLanguage` on a string: exactly "en" and "tr" are languages. */
  function ParseLang(s: string): (r: Option<Lang>)
    ensures r.Some? ==> Code(r.value) == s
    ensures r.None? <==> s != "en" && s != "tr"
  {
    if s == "en" then Some(En) else if s == "tr" then Some(Tr) else None
  }

  datatype Node = Str(s: string) | Arr(items: seq<string>) | Obj(entries: seq<(string, Node)>)

  /** A language file's root is always an object. */
  type Root = n: Node | n.Obj? witness Obj([])

  /** The two language files, `translations` in the source. */
  datatype Bundle = Bundle(en: Root, tr: Root) {
    function Of(l: Lang): Root {
      match l
      case En => en
      case Tr => tr
    }
  }

  /** `typeof` of a looked-up value: arrays and objects are both "object". */
  function TypeOf(v: Option<Node>): string {
    match v
    case None => "undefined"
    case Some(Str(_)) => "string"
    case Some(_) => "object"
  }

  /** Index of the first entry named `k`, if any. */
  function FindIndex(es: seq<(string, Node)>, k: string): (r: Option<nat>)
    ensures r.Some? ==> r.value < |es| && es[r.value].0 == k
    ensures r.Some? ==> forall j :: 0 <= j < r.value ==> es[j].0 != k
    ensures r.None? ==> forall j :: 0 <= j < |es| ==> es[j].0 != k
  {
    if es == [] then None
    else if es[0].0 == k then Some(0)
    else match FindIndex(es[1..], k)
      case None => None
      case Some(i) => Some(i + 1)
  }

  /**
   * An array answers `k in arr` for its canonical decimal indices below its
   * length ("0", "1", ... but not "01").
   */
  function ArrayIndex(k: string): (r: Option<nat>)
    ensures r.Some? ==> |k| >= 1 && (forall i :: 0 <= i < |k| ==> IsDigit(k[i]))
  {
    if |k| >= 1 && (forall i :: 0 <= i < |k| ==> IsDigit(k[i])) && (k[0] != '0' || k == "0")
    then Some(ParseDigits(k))
    else None
  }

  lemma ArrayIndexOfNat(n: nat)
    ensures ArrayIndex(NatToString(n)) == Some(n)
  {
    ParseNatToString(n);
    if n == 0 {
      assert NatToString(n) == "0";
    }
  }

  /**
   * One step of a walk: `current && typeof current === 'object' && k in current`
   * then `current[k]`, else undefined.  A string is never an object.
   */
  function Child(n: Node, k: string): Option<Node> {
    match n
    case Str(_) => None
    case Arr(items) =>
      var i := ArrayIndex(k);
      if i.Some? && i.value < |items| then Some(Str(items[i.value])) else None
    case Obj(es) =>
      var i := FindIndex(es, k);
      if i.Some? then Some(es[i.value].1) else None
  }

  /** The node reached by following `keys` from `n`, or None as soon as a step fails. */
  function Walk(n: Node, keys: seq<string>): Option<Node>
    decreases |keys|
  {
    if keys == [] then Some(n)
    else match Child(n, keys[0])
      case None => None
      case Some(c) => Walk(c, keys[1..])
  }

  /** Walking a concatenation walks the first part, then the second from where it ended. */
  lemma {:induction false} WalkAppend(n: Node, a: seq<string>, b: seq<string>)
    ensures Walk(n, a + b) == (match Walk(n, a) case None => None case Some(m) => Walk(m, b))
    decreases |a|
  {
    if a == [] {
      assert a + b == b;
    } else {
      assert (a + b)[0] == a[0];
      assert (a + b)[1..] == a[1..] + b;
      match Child(n, a[0])
      case None =>
      case Some(c) => WalkAppend(c, a[1..], b);
    }
  }

  /** The dotted key `prefix.key`, or `key` alone when the prefix is empty (falsy). */
  function FullKey(prefix: string, key: string): string {
    if prefix == "" then key else prefix + "." + key
  }

  /**
   * The recursive `for...in` collection of leaf paths (getAllKeys, getObjectPaths):
   * an entry whose value is a plain object contributes its own leaf paths, any
   * other entry (string or array) contributes its full key.  Entries from index
   * `i` on.
   */
  function LeafPathsFrom(n: Node, i: nat, prefix: string): seq<string>
    requires n.Obj? && i <= |n.entries|
    decreases n, |n.entries| - i
  {
    if i == |n.entries| then []
    else
      var (k, v) := n.entries[i];
      var full := FullKey(prefix, k);
      (if v.Obj? then LeafPathsFrom(v, 0, full) else [full]) + LeafPathsFrom(n, i + 1, prefix)
  }

  /** One entry's contribution, followed by the rest. */
  lemma LeafPathsStep(n: Node, i: nat, prefix: string, emitted: seq<string>)
    requires n.Obj? && i < |n.entries|
    requires emitted == (if n.entries[i].1.Obj? then LeafPathsFrom(n.entries[i].1, 0, FullKey(prefix, n.entries[i].0))
                         else [FullKey(prefix, n.entries[i].0)])
    ensures LeafPathsFrom(n, i, prefix) == emitted + LeafPathsFrom(n, i + 1, prefix)
  {
  }

  function LeafPaths(root: Root): seq<string> {
    LeafPathsFrom(root, 0, "")
  }

  /**
   * The leaves in the same order as LeafPathsFrom, each as the list of keys
   * leading to it together with its value.
   */
  function LeavesFrom(n: Node, i: nat): seq<(seq<string>, Node)>
    requires n.Obj? && i <= |n.entries|
    decreases n, |n.entries| - i
  {
    if i == |n.entries| then []
    else
      var (k, v) := n.entries[i];
      (if v.Obj? then Under(k, LeavesFrom(v, 0)) else [([k], v)]) + LeavesFrom(n, i + 1)
  }

  function Under(k: string, leaves: seq<(seq<string>, Node)>): (r: seq<(seq<string>, Node)>)
    ensures |r| == |leaves|
    ensures forall j :: 0 <= j < |r| ==> r[j] == ([k] + leaves[j].0, leaves[j].1)
  {
    if leaves == [] then [] else [([k] + leaves[0].0, leaves[0].1)] + Under(k, leaves[1..])
  }

  /**
   * The shape JSON.parse produces and the path lemmas need: within every object
   * the keys are distinct, non-empty and free of '.'.
   */
  predicate WellFormed(n: Node)
    decreases n
  {
    match n
    case Obj(es) =>
      && (forall i :: 0 <= i < |es| ==> es[i].0 != "" && '.' !in es[i].0 && WellFormed(es[i].1))
      && (forall i, j :: 0 <= i < j < |es| ==> es[i].0 != es[j].0)
    case _ => true
  }

  /** Each leaf path is the join of the keys leading to its leaf. */
  lemma {:induction false} LeafPathsAreJoins(n: Node, i: nat, pre: seq<string>)
    requires n.Obj? && i <= |n.entries| && WellFormed(n)
    requires forall j :: 0 <= j < |pre| ==> pre[j] != ""
    ensures |LeafPathsFrom(n, i, Join(pre, ".")) | == |LeavesFrom(n, i)|
    ensures forall j :: 0 <= j < |LeavesFrom(n, i)| ==>
      LeafPathsFrom(n, i, Join(pre, "."))[j] == Join(pre + LeavesFrom(n, i)[j].0, ".")
    decreases n, |n.entries| - i
  {
    if i < |n.entries| {
      var (k, v) := n.entries[i];
      var prefix := Join(pre, ".");
      var pre' := pre + [k];
      assert FullKey(prefix, k) == Join(pre', ".") by {
        JoinEmpty(pre, ".");
        if pre != [] {
          JoinSnoc(pre, k, ".");
        } else {
          assert pre' == [k];
        }
      }
      LeafPathsAreJoins(n, i + 1, pre);
      var restPaths := LeafPathsFrom(n, i + 1, prefix);
      var restLeaves := LeavesFrom(n, i + 1);
      if v.Obj? {
        assert forall j :: 0 <= j < |pre'| ==> pre'[j] != "";
        LeafPathsAreJoins(v, 0, pre');
        var headPaths := LeafPathsFrom(v, 0, Join(pre', "."));
        var headLeaves := Under(k, LeavesFrom(v, 0));
        assert LeafPathsFrom(n, i, prefix) == headPaths + restPaths;
        assert LeavesFrom(n, i) == headLeaves + restLeaves;
        forall j | 0 <= j < |LeavesFrom(n, i)|
          ensures LeafPathsFrom(n, i, prefix)[j] == Join(pre + LeavesFrom(n, i)[j].0, ".")
        {
          if j < |headLeaves| {
            assert pre' + LeavesFrom(v, 0)[j].0 == pre + headLeaves[j].0;
          } else {
            assert LeavesFrom(n, i)[j] == restLeaves[j - |headLeaves|];
          }
        }
      } else {
        assert LeafPathsFrom(n, i, prefix) == [Join(pre', ".")] + restPaths;
        assert LeavesFrom(n, i) == [([k], v)] + restLeaves;
      }
    }
  }

  /** Each leaf is reached by walking its keys, and is a string or an array. */
  lemma {:induction false} LeavesResolve(n: Node, i: nat)
    requires n.Obj? && i <= |n.entries| && WellFormed(n)
    ensures forall j :: 0 <= j < |LeavesFrom(n, i)| ==>
      var (keys, leaf) := LeavesFrom(n, i)[j];
      && |keys| >= 1
      && (forall m :: 0 <= m < |keys| ==> keys[m] != "" && '.' !in keys[m])
      && Walk(n, keys) == Some(leaf) && !leaf.Obj?
    decreases n, |n.entries| - i
  {
    if i < |n.entries| {
      var es := n.entries;
      var (k, v) := es[i];
      assert FindIndex(es, k) == Some(i);
      assert Child(n, k) == Some(v);
      LeavesResolve(n, i + 1);
      var restLeaves := LeavesFrom(n, i + 1);
      if v.Obj? {
        LeavesResolve(v, 0);
        var headLeaves := Under(k, LeavesFrom(v, 0));
        assert LeavesFrom(n, i) == headLeaves + restLeaves;
        forall j | 0 <= j < |headLeaves|
          ensures Walk(n, headLeaves[j].0) == Some(headLeaves[j].1)
        {
          var keys := headLeaves[j].0;
          assert keys[0] == k && keys[1..] == LeavesFrom(v, 0)[j].0;
        }
      } else {
        assert LeavesFrom(n, i) == [([k], v)] + restLeaves;
        assert Walk(n, [k]) == Walk(v, []);
      }
    }
  }

  /**
   * Every path the leaf collection emits leads back, by splitting it at '.' and
   * walking, to the string or array leaf it was emitted for.
   */
  lemma LeafPathsResolve(root: Root)
    requires WellFormed(root)
    ensures |LeafPaths(root)| == |LeavesFrom(root, 0)|
    ensures forall j :: 0 <= j < |LeafPaths(root)| ==>
      Walk(root, Split(LeafPaths(root)[j], '.')) == Some(LeavesFrom(root, 0)[j].1)
      && !LeavesFrom(root, 0)[j].1.Obj?
  {
    LeafPathsAreJoins(root, 0, []);
    LeavesResolve(root, 0);
    forall j | 0 <= j < |LeafPaths(root)|
      ensures Walk(root, Split(LeafPaths(root)[j], '.')) == Some(LeavesFrom(root, 0)[j].1)
    {
      var keys := LeavesFrom(root, 0)[j].0;
      assert [] + keys == keys;
      SplitJoin(keys, '.');
    }
  }
}
