/** The `DropTables` logical-plan extension node: a list of table references
    and an `IF EXISTS` flag, its conversion from the protobuf message, its
    encoding into the protobuf extension message, and the methods DataFusion
    asks of every user-defined node.

    The internals of table references and of their protobuf message are not
    part of this model: the two conversions are the fields of a `NameCodec`,
    and the protobuf message of one reference is the type parameter `P`. */
module DropTablesPlan {
  import opened Results

  /** A possibly qualified table name. */
  datatype OwnedTableReference =
    | Bare(table: string)
    | Partial(schema: string, table: string)
    | Full(catalog: string, schema: string, table: string)

  datatype ProtoConvError = ProtoConvError(message: string)

  datatype ExecError = Internal(message: string)

  /** Table reference to its protobuf message, and back (the back direction
      may fail). */
  datatype NameCodec<!P> = NameCodec(
    toProto: OwnedTableReference -> P,
    fromProto: P -> Result<OwnedTableReference, ProtoConvError>)

  /** Converting a reference to protobuf and back gives it back. */
  ghost predicate DecodesEncoded<P>(codec: NameCodec<P>)
  {
    forall r :: codec.fromProto(codec.toProto(r)) == Ok(r)
  }

  /** A protobuf reference that converts gives itself back when converted
      to protobuf again. */
  ghost predicate EncodesDecoded<P(!new)>(codec: NameCodec<P>)
  {
    forall p :: codec.fromProto(p).Ok? ==> codec.toProto(codec.fromProto(p).value) == p
  }

  // ---------------------------------------------------------------------
  // The node, and the protobuf messages it travels in
  // ---------------------------------------------------------------------

  datatype DropTables = DropTables(names: seq<OwnedTableReference>, ifExists: bool)

  /** The protobuf `DropTables` message. */
  datatype ProtoDropTables<P> = ProtoDropTables(names: seq<P>, ifExists: bool)

  /** The `inner` variant of a protobuf plan extension; the variants of the
      other extension nodes are `OtherExtension`. */
  datatype ProtoExtensionType<P> = DropTablesExtension(dropTables: ProtoDropTables<P>) | OtherExtension(name: string)

  datatype ProtoLogicalPlanExtension<P> = ProtoLogicalPlanExtension(inner: Option<ProtoExtensionType<P>>)

  /** The user-defined node held by a DataFusion extension plan. */
  datatype UserDefinedNode = DropTablesNode(dropTables: DropTables) | OtherNode(name: string)

  datatype LogicalPlanExtension = LogicalPlanExtension(node: UserDefinedNode)

  /** A DataFusion logical plan and expression, as inputs and expressions of
      a node. */
  datatype DfLogicalPlan = DfLogicalPlan(description: string)

  datatype DfExpr = DfExpr(text: string)

  datatype DFSchema = DFSchema(fields: seq<string>)

  const ExtensionName: string := "DropTables"

  const EmptySchema: DFSchema := DFSchema([])

  const UnsupportedExtensionMessage: string := "DropTables::try_decode_extension: unsupported extension"

  // ---------------------------------------------------------------------
  // From protobuf
  // ---------------------------------------------------------------------

  /** `.map(|name| name.try_into()).collect::<Result<_, _>>()`: converts every
      name in order and stops at the first that fails. */
  function ConvertNames<P>(codec: NameCodec<P>, names: seq<P>): (r: Result<seq<OwnedTableReference>, ProtoConvError>)
    ensures r.Ok? <==> forall i :: 0 <= i < |names| ==> codec.fromProto(names[i]).Ok?
    ensures r.Ok? ==> |r.value| == |names|
                      && forall i :: 0 <= i < |names| ==> codec.fromProto(names[i]) == Ok(r.value[i])
    ensures r.Err? ==> exists i :: 0 <= i < |names| && codec.fromProto(names[i]) == Err(r.error)
                                   && forall j :: 0 <= j < i ==> codec.fromProto(names[j]).Ok?
  {
    if names == [] then
      Ok([])
    else
      match codec.fromProto(names[0])
      case Err(e) =>
        assert codec.fromProto(names[0]) == Err(e);
        Err(e)
      case Ok(first) =>
        match ConvertNames(codec, names[1..])
        case Err(e) =>
          var k :| 0 <= k < |names[1..]| && codec.fromProto(names[1..][k]) == Err(e)
                   && forall j :: 0 <= j < k ==> codec.fromProto(names[1..][j]).Ok?;
          assert codec.fromProto(names[k + 1]) == Err(e);
          assert forall j :: 0 <= j < k + 1 ==> codec.fromProto(names[j]).Ok? by {
            forall j | 0 <= j < k + 1 ensures codec.fromProto(names[j]).Ok? {
              if j > 0 { assert names[j] == names[1..][j - 1]; }
            }
          }
          Err(e)
        case Ok(rest) =>
          assert forall i :: 1 <= i < |names| ==> names[i] == names[1..][i - 1];
          Ok([first] + rest)
  }

  /** `TryFrom<protobuf DropTables>`: the names converted element by element,
      the flag copied. */
  function TryFromProto<P>(codec: NameCodec<P>, proto: ProtoDropTables<P>): (r: Result<DropTables, ProtoConvError>)
    ensures r.Ok? <==> forall i :: 0 <= i < |proto.names| ==> codec.fromProto(proto.names[i]).Ok?
    ensures r.Ok? ==> && r.value.ifExists == proto.ifExists
                      && |r.value.names| == |proto.names|
                      && forall i :: 0 <= i < |proto.names| ==> codec.fromProto(proto.names[i]) == Ok(r.value.names[i])
    ensures r.Err? ==> exists i :: 0 <= i < |proto.names| && codec.fromProto(proto.names[i]) == Err(r.error)
                                   && forall j :: 0 <= j < i ==> codec.fromProto(proto.names[j]).Ok?
  {
    match ConvertNames(codec, proto.names)
    case Err(e) => Err(e)
    case Ok(names) => Ok(DropTables(names, proto.ifExists))
  }

  // ---------------------------------------------------------------------
  // To protobuf
  // ---------------------------------------------------------------------

  function EncodeNames<P>(codec: NameCodec<P>, names: seq<OwnedTableReference>): (r: seq<P>)
    ensures |r| == |names|
    ensures forall i :: 0 <= i < |names| ==> r[i] == codec.toProto(names[i])
  {
    seq(|names|, i requires 0 <= i < |names| => codec.toProto(names[i]))
  }

  /** `try_encode`: the protobuf extension message handed to the byte
      encoder. */
  function TryEncode<P>(codec: NameCodec<P>, node: DropTables): (ext: ProtoLogicalPlanExtension<P>)
    ensures ext.inner.Some? && ext.inner.value.DropTablesExtension?
    ensures var proto := ext.inner.value.dropTables;
            && proto.ifExists == node.ifExists
            && |proto.names| == |node.names|
            && forall i :: 0 <= i < |node.names| ==> proto.names[i] == codec.toProto(node.names[i])
  {
    ProtoLogicalPlanExtension(Some(DropTablesExtension(ProtoDropTables(EncodeNames(codec, node.names), node.ifExists))))
  }

  // ---------------------------------------------------------------------
  // The extension node
  // ---------------------------------------------------------------------

  /** `try_decode_extension`: the node itself when the extension holds a
      `DropTables`, an internal error otherwise. */
  function TryDecodeExtension(extension: LogicalPlanExtension): (r: Result<DropTables, ExecError>)
    ensures r.Ok? <==> extension.node.DropTablesNode?
    ensures r.Ok? ==> r.value == extension.node.dropTables
    ensures r.Err? ==> r.error == Internal(UnsupportedExtensionMessage)
  {
    match extension.node
    case DropTablesNode(node) => Ok(node)
    case OtherNode(_) => Err(Internal(UnsupportedExtensionMessage))
  }

  function Name(node: DropTables): string
  {
    ExtensionName
  }

  function Inputs(node: DropTables): seq<DfLogicalPlan>
  {
    []
  }

  function Schema(node: DropTables): DFSchema
  {
    EmptySchema
  }

  function Expressions(node: DropTables): seq<DfExpr>
  {
    []
  }

  function FmtForExplain(node: DropTables): string
  {
    "DropTables"
  }

  function FromTemplate(node: DropTables, exprs: seq<DfExpr>, inputs: seq<DfLogicalPlan>): DropTables
  {
    node
  }

  // ---------------------------------------------------------------------
  // Properties
  // ---------------------------------------------------------------------

  /** Converting the encoded names back gives the names, in order. */
  lemma {:induction false} ConvertEncodedNames<P>(codec: NameCodec<P>, names: seq<OwnedTableReference>)
    requires DecodesEncoded(codec)
    ensures ConvertNames(codec, EncodeNames(codec, names)) == Ok(names)
  {
    if names != [] {
      assert EncodeNames(codec, names)[1..] == EncodeNames(codec, names[1..]);
      ConvertEncodedNames(codec, names[1..]);
      assert names == [names[0]] + names[1..];
    }
  }

  /** Encoding a node and converting the message back gives the node. */
  lemma EncodeThenDecode<P>(codec: NameCodec<P>, node: DropTables)
    requires DecodesEncoded(codec)
    ensures var ext := TryEncode(codec, node);
            && ext.inner.Some? && ext.inner.value.DropTablesExtension?
            && TryFromProto(codec, ext.inner.value.dropTables) == Ok(node)
  {
    ConvertEncodedNames(codec, node.names);
  }

  /** A message that converts is given back by encoding its node. */
  lemma DecodeThenEncode<P(!new)>(codec: NameCodec<P>, proto: ProtoDropTables<P>)
    requires EncodesDecoded(codec)
    requires TryFromProto(codec, proto).Ok?
    ensures TryEncode(codec, TryFromProto(codec, proto).value).inner == Some(DropTablesExtension(proto))
  {
    var node := TryFromProto(codec, proto).value;
    var encoded := EncodeNames(codec, node.names);
    assert encoded == proto.names by {
      forall i | 0 <= i < |proto.names| ensures encoded[i] == proto.names[i] {
        assert codec.fromProto(proto.names[i]) == Ok(node.names[i]);
      }
    }
  }

  /** The node is a leaf with no expressions and the empty schema, named
      `DropTables` and explained by that name, and rebuilding it from any
      template gives it back. */
  lemma NodeIsLeaf(node: DropTables, exprs: seq<DfExpr>, inputs: seq<DfLogicalPlan>)
    ensures Name(node) == "DropTables" && FmtForExplain(node) == Name(node)
    ensures Inputs(node) == [] && Expressions(node) == [] && Schema(node) == DFSchema([])
    ensures FromTemplate(node, exprs, inputs) == node
  {
  }
}
