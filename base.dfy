/**
 * D3Base: the attribute lookup every D3 object shares. An object answers
 * `figid` (or `axid`) from its own private field when it has one, otherwise
 * by asking its parent; an object without the field and without a parent
 * raises AttributeError.
 */
module Base {

  datatype Option<T> = None | Some(value: T)

  /** The exceptions the modelled code can raise. */
  datatype Error =
    | NoAttribute(name: string)   // AttributeError("no attribute figid")
    | IndexError(what: string)    // indexing an empty list

  datatype Result<T> = Ok(value: T) | Err(error: Error) {
    predicate IsFailure() {
      Err?
    }

    function PropagateFailure<U>(): Result<U>
      requires Err?
    {
      Err(error)
    }

    function Extract(): T
      requires Ok?
    {
      value
    }
  }

  datatype Attr = FigIdAttr | AxIdAttr

  function AttrName(a: Attr): string {
    match a
    case FigIdAttr => "figid"
    case AxIdAttr => "axid"
  }

  /**
   * A D3 object as the lookup sees it: its private `_figid` and `_axid`
   * fields (absent or present) and its parent. A value of this type cannot
   * be its own parent, which is what the source's `parent is not self`
   * guard rules out.
   */
  datatype Node = Node(figid: Option<string>, axid: Option<string>, parent: Option<Node>)

  function Own(n: Node, a: Attr): Option<string> {
    match a
    case FigIdAttr => n.figid
    case AxIdAttr => n.axid
  }

  /** The node, its parent, its grandparent, ... up to the root. */
  function Ancestors(n: Node): (r: seq<Node>)
    ensures |r| >= 1 && r[0] == n
    decreases n
  {
    match n.parent
    case None => [n]
    case Some(p) => [n] + Ancestors(p)
  }

  /** The `figid` / `axid` properties of D3Base. */
  function Lookup(n: Node, a: Attr): (r: Result<string>)
    ensures r.Err? ==> r.error == NoAttribute(AttrName(a))
    decreases n
  {
    match Own(n, a)
    case Some(v) => Ok(v)
    case None =>
      match n.parent
      case Some(p) => Lookup(p, a)
      case None => Err(NoAttribute(AttrName(a)))
  }

  /** The value found is that of the nearest ancestor carrying the field. */
  lemma {:induction false} LookupFindsNearest(n: Node, a: Attr, k: nat)
    requires k < |Ancestors(n)| && Own(Ancestors(n)[k], a).Some?
    requires forall j :: 0 <= j < k ==> Own(Ancestors(n)[j], a).None?
    ensures Lookup(n, a) == Ok(Own(Ancestors(n)[k], a).value)
    decreases n
  {
    if k > 0 {
      assert Own(Ancestors(n)[0], a).None?;
      var p := n.parent.value;
      assert Ancestors(n) == [n] + Ancestors(p);
      forall j | 0 <= j < k - 1
        ensures Own(Ancestors(p)[j], a).None?
      {
        assert Ancestors(p)[j] == Ancestors(n)[j + 1];
      }
      LookupFindsNearest(p, a, k - 1);
    }
  }

  /** When no ancestor carries the field the lookup raises AttributeError. */
  lemma {:induction false} LookupFails(n: Node, a: Attr)
    requires forall j :: 0 <= j < |Ancestors(n)| ==> Own(Ancestors(n)[j], a).None?
    ensures Lookup(n, a) == Err(NoAttribute(AttrName(a)))
    decreases n
  {
    assert Own(Ancestors(n)[0], a).None?;
    match n.parent
    case None =>
    case Some(p) =>
      assert Ancestors(n) == [n] + Ancestors(p);
      forall j | 0 <= j < |Ancestors(p)|
        ensures Own(Ancestors(p)[j], a).None?
      {
        assert Ancestors(p)[j] == Ancestors(n)[j + 1];
      }
      LookupFails(p, a);
  }

  /** A successful lookup always reports a value some ancestor carries. */
  lemma {:induction false} LookupSound(n: Node, a: Attr)
    requires Lookup(n, a).Ok?
    ensures exists k :: 0 <= k < |Ancestors(n)| && Own(Ancestors(n)[k], a) == Some(Lookup(n, a).value)
    decreases n
  {
    if Own(n, a).Some? {
      assert Own(Ancestors(n)[0], a) == Some(Lookup(n, a).value);
    } else {
      var p := n.parent.value;
      LookupSound(p, a);
      var k :| 0 <= k < |Ancestors(p)| && Own(Ancestors(p)[k], a) == Some(Lookup(p, a).value);
      assert Ancestors(n) == [n] + Ancestors(p);
      assert Ancestors(n)[k + 1] == Ancestors(p)[k];
    }
  }
}
