/** The relationship elements of helpers.py (`isVersionOf`, `isPartOf`,
    `hasPart`) as fixed-shape trees, and the local-name split that the
    registry lookup of a Version record uses. A handle PID has the syntax
    `<prefix>/<local name>` (RFC 3650, section 3). */
module Relations {
  import opened Py
  import opened Text

  /** The `formatLabel` that marks an identifier as a handle PID. */
  const HandleLabel := "hdl.handle.net"

  datatype RelationKind = IsVersionOf | IsPartOf | HasPart

  /** The qualified tag of a relationship element's root. */
  function Tag(kind: RelationKind): string {
    match kind
    case IsVersionOf => "{urn:ebu:metadata-schema:ebucore}isVersionOf"
    case IsPartOf => "{urn:ebu:metadata-schema:ebucore}isPartOf"
    case HasPart => "{urn:ebu:metadata-schema:ebucore}hasPart"
  }

  /** `<ebucore:relationIdentifier …><dc:identifier>text</dc:identifier></…>`;
      `identifier` is the text of the `dc:identifier` child (`None`: no text). */
  datatype RelationIdentifier = RelationIdentifier(attributes: map<string, string>, identifier: Option<string>)

  /** A relationship element: a root of the given kind with its attributes and
      its one `relationIdentifier` child. */
  datatype Relation = Relation(kind: RelationKind, attributes: map<string, string>, child: RelationIdentifier)

  /** The common body of the three builders. `text` is what they assign to
      `dc_identifier.text`; the engine passes `None` where its variable is `None`. */
  function Build(kind: RelationKind, text: Option<string>): (r: Relation)
    ensures r.kind == kind && r.child.identifier == text
    ensures r.attributes == map[]
    ensures r.child.attributes == map["formatLabel" := HandleLabel]
  {
    Relation(kind, map[], RelationIdentifier(map["formatLabel" := HandleLabel], text))
  }

  /** `buildisVersiontOfVersionXML` */
  function BuildIsVersionOf(pidWork: string): (r: Relation)
    ensures Tag(r.kind) == "{urn:ebu:metadata-schema:ebucore}isVersionOf"
    ensures r.attributes == map[] && r.child.attributes == map["formatLabel" := HandleLabel]
    ensures r.child.identifier == Some(pidWork)
  {
    Build(IsVersionOf, Some(pidWork))
  }

  /** `buildIsPartOfInXML` */
  function BuildIsPartOf(pidVersion: string): (r: Relation)
    ensures Tag(r.kind) == "{urn:ebu:metadata-schema:ebucore}isPartOf"
    ensures r.attributes == map[] && r.child.attributes == map["formatLabel" := HandleLabel]
    ensures r.child.identifier == Some(pidVersion)
  {
    Build(IsPartOf, Some(pidVersion))
  }

  /** `buildHasPartInXML` */
  function BuildHasPart(pidDataObject: string): (r: Relation)
    ensures Tag(r.kind) == "{urn:ebu:metadata-schema:ebucore}hasPart"
    ensures r.attributes == map[] && r.child.attributes == map["formatLabel" := HandleLabel]
    ensures r.child.identifier == Some(pidDataObject)
  {
    Build(HasPart, Some(pidDataObject))
  }

  /** The three builders produce the same tree up to the root tag, and the
      PID is stored verbatim: two builds are equal exactly when kind and PID are. */
  lemma BuildersDifferOnlyInTag(p: string, q: string)
    ensures BuildIsVersionOf(p).(kind := HasPart) == BuildHasPart(p)
    ensures BuildIsPartOf(p).(kind := HasPart) == BuildHasPart(p)
    ensures BuildHasPart(p) == BuildHasPart(q) <==> p == q
    ensures BuildIsVersionOf(p) != BuildHasPart(q) && BuildIsPartOf(p) != BuildHasPart(q)
  {
  }

  /** The text the engine reads back from a relationship element:
      `str(el.find('.//dc:identifier').text).strip()`. */
  function RecordedPid(r: Relation): string {
    Trim(PyStr(r.child.identifier))
  }

  /** The selector `.//ebucore:hasPart[@formatLabel="hdl.handle.net"]`: the
      elements whose ROOT carries the handle label. */
  predicate LabelledOnRoot(r: Relation) {
    "formatLabel" in r.attributes && r.attributes["formatLabel"] == HandleLabel
  }

  /** The selector looks for the label where the builder does not put it: no
      element built by `buildHasPartInXML` is ever selected. */
  lemma BuiltHasPartNeverSelected(p: string)
    ensures !LabelledOnRoot(BuildHasPart(p))
  {
  }

  /** The label where the builder puts it: on the `relationIdentifier` child. */
  predicate LabelledOnChild(r: Relation) {
    "formatLabel" in r.child.attributes && r.child.attributes["formatLabel"] == HandleLabel
  }

  /** `pid.split('/')[1]` (helpers.py): the local name of a handle, or `None`
      where Python raises `IndexError`. */
  function LocalName(pid: string): (r: Option<string>)
    ensures r.Some? <==> '/' in pid
  {
    SplitHasFieldOneIffSeparator(pid, '/');
    Field(pid, '/', 1)
  }

  /** For a handle `<prefix>/<local name>` whose parts contain no further '/',
      the local name is the part after the '/' and `split('/')[0]` is the prefix. */
  lemma HandleParts(prefix: string, local: string)
    requires '/' !in prefix && '/' !in local
    ensures LocalName(prefix + "/" + local) == Some(local)
    ensures Before(prefix + "/" + local, '/') == prefix
  {
    assert Join([prefix, local], '/') == prefix + "/" + local;
    SplitJoin([prefix, local], '/');
    assert '/' in prefix + "/" + local by { assert (prefix + "/" + local)[|prefix|] == '/'; }
  }
}
