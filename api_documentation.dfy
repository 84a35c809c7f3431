/** The navigation and selection logic of the `api-documentation` element:
    the view flags derived from the selected type, the previous and next
    links in an endpoint or method list, the render predicates, the
    declaration lookup and the rule by which the shown endpoint model is
    replaced. The AMF graph lookups are inputs. */
module ApiDocumentation {
  import opened JsValues

  /** An AMF node as the navigation reads it: its `@id` and the values the
      link labels come from. */
  datatype AmfNode = AmfNode(
    id: string,
    schemaName: Option<string>,
    path: Option<string>,
    httpMethod: Option<string>)

  /** The link model the documentation views accept. */
  datatype Link = Link(id: string, text: Option<string>)

  /** The part of a `WebApi` node read here: its endpoint list after
      `_ensureArray`, absent when the node has none. */
  datatype WebApi = WebApi(endpoints: Option<seq<AmfNode>>)

  /** The detail of a navigation event. `passive` is whatever the sender
      put there; only the boolean `true` marks a passive event. */
  datatype NavigationDetail = NavigationDetail(
    selected: Option<string>,
    typeName: Option<string>,
    passive: JsValue)

  // ---------------------------------------------------------------------
  // Links and neighbours
  // ---------------------------------------------------------------------

  /** `_computeEndpointLink`: the schema name when truthy, else the path. */
  function EndpointLink(item: Option<AmfNode>): (r: Option<Link>)
    ensures r.None? <==> item.None?
    ensures r.Some? ==> r.value.id == item.value.id
    ensures r.Some? && TruthyStr(item.value.schemaName) ==> r.value.text == item.value.schemaName
    ensures r.Some? && !TruthyStr(item.value.schemaName) ==> r.value.text == item.value.path
  {
    match item
    case None => None
    case Some(n) => Some(Link(n.id, if TruthyStr(n.schemaName) then n.schemaName else n.path))
  }

  /** `_computeMethodLink`: the schema name when truthy, else the method. */
  function MethodLink(item: Option<AmfNode>): (r: Option<Link>)
    ensures r.None? <==> item.None?
    ensures r.Some? ==> r.value.id == item.value.id
    ensures r.Some? && TruthyStr(item.value.schemaName) ==> r.value.text == item.value.schemaName
    ensures r.Some? && !TruthyStr(item.value.schemaName) ==> r.value.text == item.value.httpMethod
  {
    match item
    case None => None
    case Some(n) => Some(Link(n.id, if TruthyStr(n.schemaName) then n.schemaName else n.httpMethod))
  }

  /** The first position whose `@id === key`; `|nodes|` if none. An absent
      key matches nothing. */
  function FirstIndexOf(nodes: seq<AmfNode>, key: Option<string>): (r: nat)
    ensures r <= |nodes|
    ensures r < |nodes| ==> Some(nodes[r].id) == key
    ensures forall j :: 0 <= j < r ==> Some(nodes[j].id) != key
  {
    if nodes == [] then 0
    else if Some(nodes[0].id) == key then 0
    else 1 + FirstIndexOf(nodes[1..], key)
  }

  /** The node `offset` places from the first match, if there is a match
      and that position exists. */
  function Neighbour(nodes: seq<AmfNode>, key: Option<string>, offset: int): (r: Option<AmfNode>)
    ensures r.Some? ==> r.value in nodes
  {
    var i := FirstIndexOf(nodes, key);
    if i == |nodes| then None
    else if 0 <= i + offset < |nodes| then Some(nodes[i + offset])
    else None
  }

  /** The search loop of the previous/next functions: returns from the
      first match, and falls off the end without one. */
  method FindNeighbour(nodes: seq<AmfNode>, key: Option<string>, offset: int) returns (r: Option<AmfNode>)
    ensures r == Neighbour(nodes, key, offset)
  {
    var i := 0;
    while i < |nodes|
      invariant 0 <= i <= |nodes|
      invariant forall j :: 0 <= j < i ==> Some(nodes[j].id) != key
    {
      if Some(nodes[i].id) == key {
        FirstIndexIs(nodes, key, i);
        if 0 <= i + offset < |nodes| {
          return Some(nodes[i + offset]);
        }
        return None;
      }
      i := i + 1;
    }
    FirstIndexIs(nodes, key, |nodes|);
    r := None;
  }

  /** A position before which nothing matches, and which matches or is the
      end, is the first match. */
  lemma {:induction false} FirstIndexIs(nodes: seq<AmfNode>, key: Option<string>, i: nat)
    requires i <= |nodes|
    requires forall j :: 0 <= j < i ==> Some(nodes[j].id) != key
    requires i < |nodes| ==> Some(nodes[i].id) == key
    ensures FirstIndexOf(nodes, key) == i
  {
    if i > 0 {
      FirstIndexIs(nodes[1..], key, i - 1);
    }
  }

  /** The endpoint neighbour a navigation view links to: nothing without a
      web API, a truthy selection or an endpoint list. */
  function EndpointNeighbour(webApi: Option<WebApi>, selected: Option<string>, offset: int): (r: Option<AmfNode>)
    ensures webApi.None? || !TruthyStr(selected) || webApi.value.endpoints.None? ==> r.None?
    ensures r.Some? ==> r.value in webApi.value.endpoints.value
  {
    if webApi.None? || !TruthyStr(selected) || webApi.value.endpoints.None? then None
    else Neighbour(webApi.value.endpoints.value, selected, offset)
  }

  /** `_computeEndpointPrevious`. */
  method ComputeEndpointPrevious(webApi: Option<WebApi>, selected: Option<string>) returns (link: Option<Link>)
    ensures link == EndpointLink(EndpointNeighbour(webApi, selected, -1))
  {
    if webApi.None? || !TruthyStr(selected) {
      return None;
    }
    var endpoints := webApi.value.endpoints;
    if endpoints.None? {
      return None;
    }
    var item := FindNeighbour(endpoints.value, selected, -1);
    link := EndpointLink(item);
  }

  /** `_computeEndpointNext`. */
  method ComputeEndpointNext(webApi: Option<WebApi>, selected: Option<string>) returns (link: Option<Link>)
    ensures link == EndpointLink(EndpointNeighbour(webApi, selected, 1))
  {
    if webApi.None? || !TruthyStr(selected) {
      return None;
    }
    var endpoints := webApi.value.endpoints;
    if endpoints.None? {
      return None;
    }
    var item := FindNeighbour(endpoints.value, selected, 1);
    link := EndpointLink(item);
  }

  /** `_computeMethodPrevious`; `methods` is the list that
      `__computeMethodsListForMethod` returns. */
  method ComputeMethodPrevious(methods: Option<seq<AmfNode>>, selected: Option<string>) returns (link: Option<Link>)
    ensures methods.None? ==> link.None?
    ensures methods.Some? ==> link == MethodLink(Neighbour(methods.value, selected, -1))
  {
    if methods.None? {
      return None;
    }
    var item := FindNeighbour(methods.value, selected, -1);
    link := MethodLink(item);
  }

  /** `_computeMethodNext`. */
  method ComputeMethodNext(methods: Option<seq<AmfNode>>, selected: Option<string>) returns (link: Option<Link>)
    ensures methods.None? ==> link.None?
    ensures methods.Some? ==> link == MethodLink(Neighbour(methods.value, selected, 1))
  {
    if methods.None? {
      return None;
    }
    var item := FindNeighbour(methods.value, selected, 1);
    link := MethodLink(item);
  }

  /** Without a match there are no neighbours, and the first node has no
      previous one. */
  lemma NeighbourMissing(nodes: seq<AmfNode>, key: Option<string>)
    ensures (forall j :: 0 <= j < |nodes| ==> Some(nodes[j].id) != key) ==>
      Neighbour(nodes, key, -1).None? && Neighbour(nodes, key, 1).None?
    ensures |nodes| > 0 && Some(nodes[0].id) == key ==> Neighbour(nodes, key, -1).None?
  {
    if forall j :: 0 <= j < |nodes| ==> Some(nodes[j].id) != key {
      FirstIndexIs(nodes, key, |nodes|);
    }
  }

  /** The neighbours of the first match at `i` are the nodes on either side
      of it, none before the first node and none after the last. */
  lemma NeighboursOfMatch(nodes: seq<AmfNode>, key: Option<string>, i: nat)
    requires i < |nodes| && Some(nodes[i].id) == key
    requires forall j :: 0 <= j < i ==> Some(nodes[j].id) != key
    ensures Neighbour(nodes, key, -1) == (if i == 0 then None else Some(nodes[i - 1]))
    ensures Neighbour(nodes, key, 1) == (if i == |nodes| - 1 then None else Some(nodes[i + 1]))
  {
    FirstIndexIs(nodes, key, i);
  }

  ghost predicate UniqueIds(nodes: seq<AmfNode>) {
    forall i, j :: 0 <= i < j < |nodes| ==> nodes[i].id != nodes[j].id
  }

  /** With distinct ids, the node before the next one is the selection
      itself, and the node after the previous one too. */
  lemma NextPreviousInverse(nodes: seq<AmfNode>, key: string)
    requires UniqueIds(nodes)
    ensures Neighbour(nodes, Some(key), 1).Some? ==>
      Neighbour(nodes, Some(Neighbour(nodes, Some(key), 1).value.id), -1).value.id == key
    ensures Neighbour(nodes, Some(key), -1).Some? ==>
      Neighbour(nodes, Some(Neighbour(nodes, Some(key), -1).value.id), 1).value.id == key
  {
    var i := FirstIndexOf(nodes, Some(key));
    if Neighbour(nodes, Some(key), 1).Some? {
      FirstIndexIs(nodes, Some(nodes[i + 1].id), i + 1);
    }
    if Neighbour(nodes, Some(key), -1).Some? {
      FirstIndexIs(nodes, Some(nodes[i - 1].id), i - 1);
    }
  }

  // ---------------------------------------------------------------------
  // _computeDeclById
  // ---------------------------------------------------------------------

  /** The first declaration whose `@id` is the selection; nothing without a
      declaration list or a match. */
  function DeclById(declares: Option<seq<AmfNode>>, selected: Option<string>): (r: Option<AmfNode>)
    ensures r.None? <==> declares.None? || forall i :: 0 <= i < |declares.value| ==> Some(declares.value[i].id) != selected
    ensures r.Some? ==> exists i :: 0 <= i < |declares.value| && declares.value[i] == r.value
                                  && Some(r.value.id) == selected
                                  && forall j :: 0 <= j < i ==> Some(declares.value[j].id) != selected
  {
    if declares.None? then None
    else
      var i := FirstIndexOf(declares.value, selected);
      if i < |declares.value| then Some(declares.value[i]) else None
  }

  // ---------------------------------------------------------------------
  // Render predicates and view flags
  // ---------------------------------------------------------------------

  /** The endpoint view in inline mode, for a selected endpoint or method. */
  function RenderInlineEndpoint(inlineMethods: bool, isMethod: bool, isEndpoint: bool): (r: bool)
    ensures !inlineMethods ==> !r
    ensures inlineMethods ==> (r <==> isMethod || isEndpoint)
  {
    inlineMethods && (isMethod || isEndpoint)
  }

  /** The single endpoint view: a selected endpoint outside inline mode. */
  function RenderEndpoint(inlineMethods: bool, isEndpoint: bool): (r: bool)
    ensures r <==> isEndpoint && !RenderInlineEndpoint(inlineMethods, false, isEndpoint)
  {
    !inlineMethods && isEndpoint
  }

  /** The single method view: a selected method outside inline mode. */
  function RenderMethod(inlineMethods: bool, isMethod: bool): (r: bool)
    ensures r <==> isMethod && !RenderInlineEndpoint(inlineMethods, isMethod, false)
  {
    !inlineMethods && isMethod
  }

  /** The inline view and the standalone views are never on together, and
      with at most one of the endpoint and method flags set, at most one
      of the three views is on; one is on when either flag is set. */
  lemma RenderExclusive(inlineMethods: bool, isMethod: bool, isEndpoint: bool)
    ensures !(RenderInlineEndpoint(inlineMethods, isMethod, isEndpoint)
              && (RenderEndpoint(inlineMethods, isEndpoint) || RenderMethod(inlineMethods, isMethod)))
    ensures !(isMethod && isEndpoint) ==>
      !(RenderEndpoint(inlineMethods, isEndpoint) && RenderMethod(inlineMethods, isMethod))
    ensures (isMethod || isEndpoint) <==>
      (RenderInlineEndpoint(inlineMethods, isMethod, isEndpoint)
       || RenderEndpoint(inlineMethods, isEndpoint) || RenderMethod(inlineMethods, isMethod))
  {
  }

  datatype Flags = Flags(
    isEndpoint: bool, isMethod: bool, isDoc: bool,
    isType: bool, isSecurity: bool, isSummary: bool)

  function CountSet(f: Flags): nat {
    (if f.isEndpoint then 1 else 0) + (if f.isMethod then 1 else 0)
    + (if f.isDoc then 1 else 0) + (if f.isType then 1 else 0)
    + (if f.isSecurity then 1 else 0) + (if f.isSummary then 1 else 0)
  }

  /** The flags as `_navigationOccured` sets them for a selected type: at
      most one view flag is set, and one is set exactly when the type is one
      of the six view names. */
  function FlagsFor(selectedType: Option<string>): (r: Flags)
    ensures CountSet(r) <= 1
    ensures CountSet(r) == 1 <==>
      selectedType in {Some("endpoint"), Some("method"), Some("documentation"),
                       Some("type"), Some("security"), Some("summary")}
  {
    Flags(selectedType == Some("endpoint"), selectedType == Some("method"),
          selectedType == Some("documentation"), selectedType == Some("type"),
          selectedType == Some("security"), selectedType == Some("summary"))
  }

  // ---------------------------------------------------------------------
  // The endpoint model
  // ---------------------------------------------------------------------

  /** An endpoint model object; two models can be distinct objects with the
      same `@id`. */
  class EndpointModel {
    const id: string

    constructor (id: string)
      ensures this.id == id
    {
      this.id := id;
    }
  }

  /** The value `endpoint` holds after `_updateEndpoint` computed `next`:
      it follows `next` in presence and `@id`, and stays the current object
      whenever presence and `@id` already agree. */
  function Replacement(current: EndpointModel?, next: EndpointModel?): (r: EndpointModel?)
    ensures r == current || r == next
    ensures r == null <==> next == null
    ensures r != null ==> r.id == next.id
    ensures r == current <==> (current == null && next == null) || (current != null && next != null && current.id == next.id)
  {
    if current == next then current
    else if current == null then next
    else if next == null then next
    else if current.id != next.id then next
    else current
  }

  /** A second update with the same model changes nothing. */
  lemma ReplacementIdempotent(current: EndpointModel?, next: EndpointModel?)
    ensures Replacement(Replacement(current, next), next) == Replacement(current, next)
  {
  }

  // ---------------------------------------------------------------------
  // The component
  // ---------------------------------------------------------------------

  class ApiDocumentationElement {
    var selected: Option<string>
    var selectedType: Option<string>
    var isEndpoint: bool
    var isMethod: bool
    var isDoc: bool
    var isType: bool
    var isSecurity: bool
    var isSummary: bool
    var endpoint: EndpointModel?

    constructor ()
      ensures selected.None? && selectedType.None? && endpoint == null
      ensures CurrentFlags() == Flags(false, false, false, false, false, false)
    {
      selected, selectedType := None, None;
      isEndpoint, isMethod, isDoc, isType, isSecurity, isSummary := false, false, false, false, false, false;
      endpoint := null;
    }

    function CurrentFlags(): Flags
      reads this
    {
      Flags(isEndpoint, isMethod, isDoc, isType, isSecurity, isSummary)
    }

    /** `_navigationHandler`: a passive event changes nothing; any other
        copies the selection and its type. */
    method NavigationHandler(detail: NavigationDetail)
      modifies this`selected, this`selectedType
      ensures detail.passive == Bool(true) ==> selected == old(selected) && selectedType == old(selectedType)
      ensures detail.passive != Bool(true) ==> selected == detail.selected && selectedType == detail.typeName
    {
      if detail.passive == Bool(true) {
        return;
      }
      selected := detail.selected;
      selectedType := detail.typeName;
    }

    /** `_navigationOccured`: each flag becomes whether the type is its
        view name, a flag already equal being left alone. */
    method NavigationOccured(selectedType: Option<string>)
      modifies this`isEndpoint, this`isMethod, this`isDoc, this`isType, this`isSecurity, this`isSummary
      ensures CurrentFlags() == FlagsFor(selectedType)
    {
      var isEndpoint := selectedType == Some("endpoint");
      if this.isEndpoint != isEndpoint {
        this.isEndpoint := isEndpoint;
      }
      assert this.isEndpoint == isEndpoint;
      var isMethod := selectedType == Some("method");
      if this.isMethod != isMethod {
        this.isMethod := isMethod;
      }
      assert this.isMethod == isMethod;
      var isDoc := selectedType == Some("documentation");
      if this.isDoc != isDoc {
        this.isDoc := isDoc;
      }
      assert this.isDoc == isDoc;
      var isType := selectedType == Some("type");
      if this.isType != isType {
        this.isType := isType;
      }
      assert this.isType == isType;
      var isSecurity := selectedType == Some("security");
      if this.isSecurity != isSecurity {
        this.isSecurity := isSecurity;
      }
      assert this.isSecurity == isSecurity;
      var isSummary := selectedType == Some("summary");
      if this.isSummary != isSummary {
        this.isSummary := isSummary;
      }
      assert this.isSummary == isSummary;
    }

    /** `_updateEndpoint`. `endpointModel` and `methodEndpoint` are what
        `_computeEndpointModel` and `_computeMethodEndpoint` return for
        this web API and selection. */
    method UpdateEndpoint(isEndpoint: bool, isMethod: bool, selected: Option<string>, webApi: Option<WebApi>,
                          endpointModel: EndpointModel?, methodEndpoint: EndpointModel?)
      modifies this`endpoint
      ensures !TruthyStr(selected) || webApi.None? || (!isEndpoint && !isMethod) ==> endpoint == old(endpoint)
      ensures TruthyStr(selected) && webApi.Some? && (isEndpoint || isMethod) ==>
        endpoint == Replacement(old(endpoint), if isEndpoint then endpointModel else methodEndpoint)
    {
      if !TruthyStr(selected) || webApi.None? {
        return;
      }
      if !isEndpoint && !isMethod {
        return;
      }
      var next := if isEndpoint then endpointModel else methodEndpoint;
      var current := this.endpoint;
      if current == next {
        return;
      }
      if current == null {
        if next != null {
          this.endpoint := next;
        }
      } else {
        if next == null {
          this.endpoint := next;
        } else if current.id != next.id {
          this.endpoint := next;
        }
      }
    }
  }
}
