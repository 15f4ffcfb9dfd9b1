/** The part of PHP's class model that configuration resolution relies on: a table of declared
    classes, each with an optional parent class and the framework types it directly extends or
    implements, and the "is a subclass of" check that walks the parent chain. */
module PhpClasses {
  import opened Wrappers

  /** The framework types a configured class may be required to descend from. They are the roots
      of the hierarchy and are not entries of a class table, since PHP never counts a type as a
      subclass of itself. */
  datatype Capability =
    | SignatureValidator
    | WebhookProfile
    | RespondsToWebhook
    | ProcessWebhookJob
    | Model

  type ClassName = string

  /** One declared class: the class it extends, if any, and the framework types it names in its
      own `extends`/`implements` clause. */
  datatype ClassDecl = ClassDecl(parent: Option<ClassName>, implements: set<Capability>)

  /** Every class PHP can load, by fully qualified name. */
  type ClassTable = map<ClassName, ClassDecl>

  /** The class named `n` followed by its ancestors, nearest first, for as long as each parent is
      declared. Each visited class is taken out of the table, so a class met twice ends the walk:
      the last class has no parent, or a parent that is undeclared or already in the lineage. */
  function Lineage(t: ClassTable, n: ClassName): (l: seq<ClassName>)
    ensures n in t <==> |l| > 0
    ensures |l| > 0 ==> l[0] == n
    ensures forall a | a in l :: a in t
    ensures forall i | 0 <= i < |l| - 1 :: t[l[i]].parent == Some(l[i + 1])
    ensures forall i, j | 0 <= i < j < |l| :: l[i] != l[j]
    decreases |t|
  {
    if n !in t then []
    else
      var rest := t - {n};
      assert |rest| < |t| by { assert rest.Keys == t.Keys - {n}; }
      match t[n].parent
      case None => [n]
      case Some(p) => [n] + Lineage(rest, p)
  }

  /** The lineage runs to the end of the parent chain. */
  lemma {:induction false} LineageRunsToEnd(t: ClassTable, n: ClassName)
    ensures var l := Lineage(t, n);
      |l| > 0 && t[l[|l| - 1]].parent.Some? ==>
        t[l[|l| - 1]].parent.value !in t || t[l[|l| - 1]].parent.value in l
    decreases |t|
  {
    if n in t && t[n].parent.Some? {
      var rest := t - {n};
      assert |rest| < |t| by { assert rest.Keys == t.Keys - {n}; }
      LineageRunsToEnd(rest, t[n].parent.value);
    }
  }

  /** PHP's `is_subclass_of(n, c)`: `n` is a declared class and it, or one of its ancestors,
      extends or implements `c`. */
  function IsSubclassOf(t: ClassTable, n: ClassName, c: Capability): (b: bool)
    ensures b ==> n in t
    ensures n in t && c in t[n].implements ==> b
    decreases |t|
  {
    if n !in t then false
    else if c in t[n].implements then true
    else
      var rest := t - {n};
      assert |rest| < |t| by { assert rest.Keys == t.Keys - {n}; }
      match t[n].parent
      case None => false
      case Some(p) => IsSubclassOf(rest, p, c)
  }

  /** The walk agrees with its reference definition: `n` is a subclass of `c` exactly when some
      class in its lineage names `c` directly. */
  lemma {:induction false} IsSubclassOfIffAncestorImplements(t: ClassTable, n: ClassName, c: Capability)
    ensures IsSubclassOf(t, n, c) <==> exists a | a in Lineage(t, n) :: a in t && c in t[a].implements
    decreases |t|
  {
    if n in t && c !in t[n].implements && t[n].parent.Some? {
      var rest := t - {n};
      var p := t[n].parent.value;
      assert |rest| < |t| by { assert rest.Keys == t.Keys - {n}; }
      IsSubclassOfIffAncestorImplements(rest, p, c);
      var l := Lineage(t, n);
      assert l == [n] + Lineage(rest, p);
      if IsSubclassOf(t, n, c) {
        var a :| a in Lineage(rest, p) && a in rest && c in rest[a].implements;
        assert a in l && a in t && c in t[a].implements;
      } else {
        forall a | a in l && a in t
          ensures c !in t[a].implements
        {
          if a != n {
            assert a in Lineage(rest, p);
          }
        }
      }
    }
  }

  /** Declaring or dropping a class off `n`'s lineage changes neither the lineage of `n` nor
      what `n` is a subclass of. */
  lemma {:induction false} RemoveOffLineage(t: ClassTable, n: ClassName, x: ClassName, c: Capability)
    requires x !in Lineage(t, n)
    ensures Lineage(t - {x}, n) == Lineage(t, n)
    ensures IsSubclassOf(t - {x}, n, c) == IsSubclassOf(t, n, c)
    decreases |t|
  {
    if n in t {
      var rest := t - {n};
      assert |rest| < |t| by { assert rest.Keys == t.Keys - {n}; }
      assert (t - {x}) - {n} == rest - {x};
      if t[n].parent.Some? {
        var p := t[n].parent.value;
        assert Lineage(t, n) == [n] + Lineage(rest, p);
        RemoveOffLineage(rest, p, x, c);
      }
    }
  }

  /** Class `n` is not among the ancestors of its own parent; PHP refuses to load a class for
      which this fails. */
  ghost predicate NotOwnAncestor(t: ClassTable, n: ClassName)
    requires n in t && t[n].parent.Some?
  {
    n !in Lineage(t, t[n].parent.value)
  }

  /** Inheritance: a class that is not its own ancestor, as PHP guarantees for every class it
      loads, is a subclass of `c` exactly when it names `c` itself or its parent is a subclass
      of `c`. */
  lemma SubclassInheritsFromParent(t: ClassTable, n: ClassName, c: Capability)
    requires n in t && t[n].parent.Some?
    requires NotOwnAncestor(t, n)
    ensures IsSubclassOf(t, n, c) <==> c in t[n].implements || IsSubclassOf(t, t[n].parent.value, c)
  {
    RemoveOffLineage(t, t[n].parent.value, n, c);
  }
}
