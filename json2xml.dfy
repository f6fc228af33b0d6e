/** The hooks by which Json2Xml steers the schema-guided Tree2Xml walk over a JSON tree:
    root resolution, leaf text, which input values are occurrences of a schema child, and
    the repeat/container disambiguation of processArray. */
module Json2XmlAlign {
  import opened Wrappers
  import opened Strings
  import opened Json

  /** Calls made into the Tree2Xml superclass, whose own behaviour is not part of this model. */
  datatype Event =
    | SuperStartParse(node: Node)
    | HandleNode(node: Node, name: string, nameSpace: string)
    | ProcessChildElement(node: Node, name: string, childElementName: string, nameSpace: string, mandatory: bool)
    | SuperProcessArray(node: Node, name: string, childElementName: string, nameSpace: string,
                        mandatory: bool, unProcessedAtCall: set<string>)

  /** The exceptions the hooks raise. */
  datatype AlignError =
    | SaxException(message: string)
    | ClassCastException(message: string)

  /** What the hooks consult: the two construction flags of Json2Xml and the Tree2Xml state
      for the element being aligned (isParentOfSingleMultipleOccurringChildElement() and
      multipleOccurringChildElements; a null set is the empty set). */
  datatype AlignContext = AlignContext(
    insertElementContainerElements: bool,
    strictSyntax: bool,
    parentOfSingleMultipleOccurringChildElement: bool,
    multipleOccurringChildElements: set<string>)
  {
    /** Container elements may be inserted or removed heuristically. */
    predicate Heuristic() {
      insertElementContainerElements || !strictSyntax
    }
  }

  function Min(a: int, b: int): int {
    if a < b then a else b
  }

  /** The name list of the "too many names" message: the first min(n,7) names joined by
      "," and ", ..." appended when there are 7 or more. */
  function TooManyNamesList(names: seq<string>): string
    requires |names| > 1
  {
    Join(names[..Min(|names|, 7)], ",") + (if |names| >= 7 then ", ..." else "")
  }

  /** Building the list as startParse does, one name at a time. */
  method BuildNamesList(names: seq<string>) returns (namesList: string)
    requires |names| > 1
    ensures namesList == TooManyNamesList(names)
  {
    namesList := names[0];
    var i := 1;
    while i < |names|
      invariant 1 <= i <= |names| && i <= 6
      invariant namesList == Join(names[..i], ",")
    {
      JoinSnoc(names[..i], names[i], ",");
      assert names[..i] + [names[i]] == names[..i + 1];
      namesList := namesList + "," + names[i];
      if i > 5 {
        namesList := namesList + ", ...";
        break;
      }
      i := i + 1;
    }
    assert names[..|names|] == names;
  }

  /** A reader splitting the message list at "," recovers the listed names, and a last
      " ..." token when the list was cut off. */
  lemma NamesListTokens(names: seq<string>)
    requires |names| > 1
    requires forall n :: n in names ==> IsToken(n, ',')
    ensures Tokens(TooManyNamesList(names), ',') ==
      names[..Min(|names|, 7)] + (if |names| >= 7 then [" ..."] else [])
  {
    var listed := names[..Min(|names|, 7)];
    if |names| >= 7 {
      JoinSnoc(listed, " ...", ",");
      assert Join(listed, ",") + ", ..." == Join(listed, ",") + "," + " ...";
      TokensOfJoin(listed + [" ..."], ',');
    } else {
      assert Join(listed, ",") + "" == Join(listed, ",");
      TokensOfJoin(listed, ',');
    }
  }

  /** getText: the node's string form, with the empty object "{}" read as empty text. */
  function GetText(node: Node): (r: string)
    ensures r == "" || r == ToString(node)
  {
    var result := ToString(node);
    if result == "{}" then "" else result
  }

  /** Only three inputs give empty leaf text: the empty string, the string "{}" and the
      empty object. Arrays never do, nor does any object with a member. */
  lemma GetTextEmpty(node: Node)
    ensures GetText(node) == "" <==> node == Scalar("") || node == Scalar("{}") || node == Obj([])
  {
    match node
    case Scalar(t) =>
    case Arr(es) =>
      assert ToString(node)[0] == '[';
    case Compact(es) =>
      assert ToString(node)[0] == '[';
    case Obj(ms) =>
      if ms != [] {
        var parts := seq(|ms|, i requires 0 <= i < |ms| => Quote(ms[i].0) + ":" + JsonText(ms[i].1));
        JoinStartsWithFirst(parts, ",");
        assert parts[0][0] == '"';
        assert ToString(node) == "{" + Join(parts, ",") + "}";
        assert ToString(node)[1] == '"';
      }
  }

  function StrictCompactMessage(name: string): string {
    "getChildrenByName() child [" + name + "], found LinkedList, straight json found while in compacting mode and strict syntax checking"
  }

  /** getChildrenByName: the input values that count as occurrences of the schema child
      `name` of `node`, None for Java null. */
  function ChildrenByName(ctx: AlignContext, node: Node, name: string): Result<Option<seq<Node>>, AlignError> {
    match node
    case Compact(items) =>
      if ctx.strictSyntax then
        Failure(SaxException(StrictCompactMessage(name)))
      else Success(Some(items))
    case Arr(es) =>
      if ctx.insertElementContainerElements && ctx.parentOfSingleMultipleOccurringChildElement
      then Success(Some(es)) else Success(None)
    case Scalar(_) => Success(None)
    case Obj(ms) =>
      match Opt(ms, name)
      case None => Success(None)
      case Some(child) =>
        if child.Arr? then
          if ctx.Heuristic() && name !in ctx.multipleOccurringChildElements
          then Success(Some([child]))
          else Success(Some(child.elems))
        else Success(Some([child]))
  }

  /** getAllChildNames: the names of the children present in `node`, None for Java null. */
  function AllChildNames(ctx: AlignContext, node: Node): Option<set<string>> {
    if ctx.parentOfSingleMultipleOccurringChildElement && ctx.Heuristic() && node.Arr? then
      Some(ctx.multipleOccurringChildElements)
    else if node.Obj? then
      Some(set i | 0 <= i < |node.members| :: node.members[i].0)
    else None
  }

  /** Nothing is lost or duplicated: the occurrences found in an object are either its
      value under `name` as one occurrence or, for an array value, exactly its elements in
      order; and a value is found iff the object has the name. */
  lemma ChildrenOfObjectReassemble(ctx: AlignContext, members: seq<(string, Node)>, name: string)
    ensures ChildrenByName(ctx, Obj(members), name).Success?
    ensures ChildrenByName(ctx, Obj(members), name).value.Some? <==> name in Keys(members)
    ensures ChildrenByName(ctx, Obj(members), name).value.Some? ==>
      var found := ChildrenByName(ctx, Obj(members), name).value.value;
      var child := Opt(members, name).value;
      found == [child] || child == Arr(found)
  {
  }

  /** An array value of an object is kept whole as one container occurrence exactly when
      heuristics are on and the name is not known to repeat; otherwise it is unwrapped. */
  lemma {:induction false} ArrayChildKeptWhole(ctx: AlignContext, members: seq<(string, Node)>, name: string, es: seq<Node>)
    requires Opt(members, name) == Some(Arr(es))
    ensures ChildrenByName(ctx, Obj(members), name) == Success(Some([Arr(es)])) <==>
      ctx.Heuristic() && name !in ctx.multipleOccurringChildElements
    ensures ChildrenByName(ctx, Obj(members), name) == Success(Some(es)) <==>
      !(ctx.Heuristic() && name !in ctx.multipleOccurringChildElements)
  {
    // an array is never its own only element, so the two answers differ
    if |es| == 1 {
      assert es[0] < Arr(es);
      assert es != [Arr(es)];
    }
  }

  /** With container insertion on, every name getAllChildNames reports for an object, or
      for an array under the parent of a single repeating child, has occurrences. */
  lemma AllChildNamesHaveChildren(ctx: AlignContext, node: Node, name: string)
    requires ctx.insertElementContainerElements
    requires node.Obj? || (node.Arr? && ctx.parentOfSingleMultipleOccurringChildElement)
    requires AllChildNames(ctx, node).Some? && name in AllChildNames(ctx, node).value
    ensures ChildrenByName(ctx, node, name).Success?
    ensures ChildrenByName(ctx, node, name).value.Some?
  {
    if node.Obj? {
      var i :| 0 <= i < |node.members| && node.members[i].0 == name;
      assert Keys(node.members)[i] == name;
    }
  }

  /** In lenient mode without container insertion an array under the parent of a single
      repeating child reports the repeating names but yields no occurrences for them:
      processArray, not getChildrenByName, hands its elements on. */
  lemma LenientArrayNamesWithoutChildren(ctx: AlignContext, es: seq<Node>, name: string)
    requires !ctx.insertElementContainerElements && !ctx.strictSyntax
    requires ctx.parentOfSingleMultipleOccurringChildElement
    ensures AllChildNames(ctx, Arr(es)) == Some(ctx.multipleOccurringChildElements)
    ensures ChildrenByName(ctx, Arr(es), name) == Success(None)
  {
  }

  /** A mutable java.util.Set of element names, shared between Tree2Xml and processArray. */
  class NameSet {
    var elems: set<string>

    constructor (initial: set<string>)
      ensures elems == initial
    {
      elems := initial;
    }
  }

  class Json2Xml {
    const insertElementContainerElements: bool
    const strictSyntax: bool
    var parentOfSingleMultipleOccurringChildElement: bool
    var multipleOccurringChildElements: set<string>
    var rootElement: Option<string>
    /** The calls made into Tree2Xml, in order. */
    ghost var events: seq<Event>

    constructor (insertElementContainerElements: bool, strictSyntax: bool)
      ensures this.insertElementContainerElements == insertElementContainerElements
      ensures this.strictSyntax == strictSyntax
      ensures rootElement == None && events == []
      ensures !parentOfSingleMultipleOccurringChildElement && multipleOccurringChildElements == {}
    {
      this.insertElementContainerElements := insertElementContainerElements;
      this.strictSyntax := strictSyntax;
      parentOfSingleMultipleOccurringChildElement := false;
      multipleOccurringChildElements := {};
      rootElement := None;
      events := [];
    }

    function Context(): AlignContext
      reads this
    {
      AlignContext(insertElementContainerElements, strictSyntax,
                   parentOfSingleMultipleOccurringChildElement, multipleOccurringChildElements)
    }

    /** startParse: the root object must hold exactly one name; it names the root element
        and only its value is parsed further. */
    method StartParse(node: Node) returns (r: Outcome<AlignError>)
      requires node.Obj?
      modifies this`rootElement, this`events
      ensures |node.members| == 0 ==>
        r == Fail(SaxException("no names found")) && rootElement == old(rootElement) && events == old(events)
      ensures |node.members| > 1 ==>
        r == Fail(SaxException("too many names [" + TooManyNamesList(Keys(node.members)) + "]"))
        && rootElement == old(rootElement) && events == old(events)
      ensures |node.members| == 1 ==>
        r == Pass && rootElement == Some(node.members[0].0)
        && events == old(events) + [SuperStartParse(node.members[0].1)]
    {
      var names := Keys(node.members);
      if |names| == 0 {
        return Fail(SaxException("no names found"));
      }
      if |names| > 1 {
        var namesList := BuildNamesList(names);
        return Fail(SaxException("too many names [" + namesList + "]"));
      }
      rootElement := Some(names[0]);
      var value := Opt(node.members, names[0]);
      events := events + [SuperStartParse(value.value)];
      r := Pass;
    }

    /** getChildrenByName, building its result list element by element. */
    method GetChildrenByName(node: Node, name: string) returns (r: Result<Option<seq<Node>>, AlignError>)
      ensures r == ChildrenByName(Context(), node, name)
    {
      ghost var ctx := Context();
      if node.Compact? {
        if strictSyntax {
          return Failure(SaxException(StrictCompactMessage(name)));
        }
        return Success(Some(node.items));
      }
      if node.Arr? && insertElementContainerElements && parentOfSingleMultipleOccurringChildElement {
        var result := CopyElements(node.elems);
        return Success(Some(result));
      }
      if !node.Obj? {
        return Success(None);
      }
      var child := Opt(node.members, name);
      assert ChildrenByName(ctx, node, name) == match child
        case None => Success(None)
        case Some(c) =>
          if c.Arr? then
            if ctx.Heuristic() && name !in ctx.multipleOccurringChildElements
            then Success(Some([c])) else Success(Some(c.elems))
          else Success(Some([c]));
      if child.None? {
        return Success(None);
      }
      if child.value.Arr? {
        if (insertElementContainerElements || !strictSyntax) && name !in multipleOccurringChildElements {
          r := Success(Some([child.value]));
        } else {
          var result := CopyElements(child.value.elems);
          r := Success(Some(result));
        }
        return;
      }
      r := Success(Some([child.value]));
    }

    /** The index loop that adds each element of a JSONArray to a new LinkedList. */
    static method CopyElements(ja: seq<Node>) returns (result: seq<Node>)
      ensures result == ja
    {
      result := [];
      var i := 0;
      while i < |ja|
        invariant 0 <= i <= |ja|
        invariant result == ja[..i]
      {
        result := result + [ja[i]];
        i := i + 1;
      }
    }

    /** getAllChildNames, collecting the member names into a new HashSet. */
    method GetAllChildNames(node: Node) returns (r: Option<set<string>>)
      ensures r == AllChildNames(Context(), node)
    {
      if parentOfSingleMultipleOccurringChildElement && (insertElementContainerElements || !strictSyntax) && node.Arr? {
        return Some(multipleOccurringChildElements);
      }
      if !node.Obj? {
        return None;
      }
      var names := Keys(node.members);
      var result: set<string> := {};
      var i := 0;
      while i < |names|
        invariant 0 <= i <= |names|
        invariant result == set k | 0 <= k < i :: node.members[k].0
      {
        result := result + {names[i]};
        i := i + 1;
      }
      r := Some(result);
    }

    /** Tree2Xml.handleNode, recorded. */
    method HandleNodeHook(node: Node, name: string, nameSpace: string)
      modifies this`events
      ensures events == old(events) + [HandleNode(node, name, nameSpace)]
    {
      events := events + [HandleNode(node, name, nameSpace)];
    }

    /** processArray: the repeat/container disambiguation for the parent of a single
        repeating child. */
    method ProcessArray(node: Node, name: string, childElementName: string, childElementNameSpace: string,
                        mandatory: bool, unProcessedChildren: NameSet, processedChildren: NameSet)
      returns (r: Outcome<AlignError>)
      requires unProcessedChildren != processedChildren
      modifies this`events, unProcessedChildren, processedChildren
      ensures !Context().Heuristic() ==>
        r == Pass
        && unProcessedChildren.elems == old(unProcessedChildren.elems)
        && processedChildren.elems == old(processedChildren.elems)
        && events == old(events) + [SuperProcessArray(node, name, childElementName, childElementNameSpace,
                                                      mandatory, old(unProcessedChildren.elems))]
      ensures Context().Heuristic() && old(unProcessedChildren.elems) == {} ==>
        r == Pass
        && unProcessedChildren.elems == (if node.Arr? then {childElementName} else {})
        && processedChildren.elems == old(processedChildren.elems)
        && events == old(events) + [SuperProcessArray(node, name, childElementName, childElementNameSpace,
                                                      mandatory, unProcessedChildren.elems)]
      ensures Context().Heuristic() && old(unProcessedChildren.elems) != {} && node.Arr? ==>
        r == Pass
        && events == old(events) + seq(|node.elems|, i requires 0 <= i < |node.elems| =>
                                        HandleNode(node.elems[i], childElementName, childElementNameSpace))
        && processedChildren.elems == old(processedChildren.elems) + {childElementName}
        && unProcessedChildren.elems == old(unProcessedChildren.elems) - {childElementName}
      ensures Context().Heuristic() && old(unProcessedChildren.elems) != {} && node.Obj?
              && Opt(node.members, childElementName).None? ==>
        r == Pass
        && events == old(events) + [HandleNode(node, childElementName, childElementNameSpace)]
        && unProcessedChildren.elems == {}
        && processedChildren.elems == old(processedChildren.elems) + {name}
      ensures Context().Heuristic() && old(unProcessedChildren.elems) != {} && node.Obj?
              && Opt(node.members, childElementName).Some? ==>
        var child := Opt(node.members, childElementName).value;
        r == Pass
        && events == old(events) + [ProcessChildElement(Compact(if child.Arr? then child.elems else [child]),
                                                        name, childElementName, childElementNameSpace, mandatory)]
        && unProcessedChildren.elems == old(unProcessedChildren.elems)
        && processedChildren.elems == old(processedChildren.elems)
      ensures Context().Heuristic() && old(unProcessedChildren.elems) != {} && (node.Scalar? || node.Compact?) ==>
        r.Fail? && r.error.ClassCastException?
        && events == old(events)
        && unProcessedChildren.elems == old(unProcessedChildren.elems)
        && processedChildren.elems == old(processedChildren.elems)
      ensures old(unProcessedChildren.elems) !! old(processedChildren.elems)
              && !(node.Arr? && childElementName in old(processedChildren.elems)) ==>
        unProcessedChildren.elems !! processedChildren.elems
    {
      if insertElementContainerElements || !strictSyntax {
        if unProcessedChildren.elems == {} {
          if node.Arr? {
            unProcessedChildren.elems := unProcessedChildren.elems + {childElementName};
          }
          events := events + [SuperProcessArray(node, name, childElementName, childElementNameSpace,
                                                mandatory, unProcessedChildren.elems)];
          r := Pass;
        } else if node.Arr? {
          var ja := node.elems;
          var i := 0;
          while i < |ja|
            invariant 0 <= i <= |ja|
            invariant unProcessedChildren.elems == old(unProcessedChildren.elems)
            invariant processedChildren.elems == old(processedChildren.elems)
            invariant events == old(events) + seq(i, k requires 0 <= k < i =>
                                                  HandleNode(ja[k], childElementName, childElementNameSpace))
          {
            HandleNodeHook(ja[i], childElementName, childElementNameSpace);
            i := i + 1;
          }
          processedChildren.elems := processedChildren.elems + {childElementName};
          unProcessedChildren.elems := unProcessedChildren.elems - {childElementName};
          r := Pass;
        } else if node.Obj? {
          var childObject := Opt(node.members, childElementName);
          if childObject.None? {
            HandleNodeHook(node, childElementName, childElementNameSpace);
            unProcessedChildren.elems := {};
            processedChildren.elems := processedChildren.elems + {name};
          } else {
            var helper: seq<Node>;
            if childObject.value.Arr? {
              helper := CopyElements(childObject.value.elems);
            } else {
              helper := [childObject.value];
            }
            events := events + [ProcessChildElement(Compact(helper), name, childElementName,
                                                    childElementNameSpace, mandatory)];
          }
          r := Pass;
        } else {
          r := Fail(ClassCastException("node is not a JSONObject"));
        }
      } else {
        events := events + [SuperProcessArray(node, name, childElementName, childElementNameSpace,
                                              mandatory, unProcessedChildren.elems)];
        r := Pass;
      }
    }
  }
}
