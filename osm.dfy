/** The decoded entities the parser hands back (OSM_Node, OSM_Way,
    OSM_Relation), the bounding box, and the result lists they are stored in. */
module Osm {
  import opened Common

  /** version, changeset, user, uid and timestamp of an entity. */
  datatype Meta = Meta(version: int, changeset: int, user: string, uid: int, timestamp: int)

  /** The metadata a dense node carries when its block has no DenseInfo. */
  const DenseDefaultMeta: Meta := Meta(0, 0, "", 0, 0)

  datatype Tag = Tag(key: string, val: string)

  /** `meta` is `None` when the source leaves the fields unset (an entity
      without Info); `tags` is `None` for a NULL tag list. */
  datatype OsmNode = OsmNode(id: int, lat: real, lon: real, meta: Option<Meta>, tags: Option<seq<Tag>>)

  /** `nodes` is the zero-terminated reference array of the source. */
  datatype OsmWay = OsmWay(id: int, meta: Option<Meta>, nodes: seq<int>, tags: Option<seq<Tag>>)

  /** A member type the parser does not recognise leaves the member's type
      field unassigned. */
  datatype MemberKind = NodeMember | WayMember | RelationMember | Unassigned

  datatype Member = Member(ref: int, kind: MemberKind, role: string)

  /** `members` is `None` for a relation without members (a NULL list). */
  datatype OsmRelation = OsmRelation(id: int, meta: Option<Meta>, members: Option<seq<Member>>, tags: Option<seq<Tag>>)

  /** The box in degrees: longitudes `left..right`, latitudes `bottom..top`. */
  datatype BBox = BBox(left: real, right: real, bottom: real, top: real)

  /** The inclusive containment test on a node's coordinates. */
  predicate Inside(b: BBox, lat: real, lon: real) {
    b.left <= lon <= b.right && b.bottom <= lat <= b.top
  }

  /** OSM_Data: the three result lists, in the order entities were kept. */
  class OsmData {
    var nodes: seq<OsmNode>
    var ways: seq<OsmWay>
    var relations: seq<OsmRelation>

    constructor ()
      ensures nodes == [] && ways == [] && relations == []
    {
      nodes, ways, relations := [], [], [];
    }

    /** `data->nodes->data[num] = n; num += 1`. */
    method AppendNode(n: OsmNode)
      modifies this
      ensures nodes == old(nodes) + [n]
      ensures ways == old(ways) && relations == old(relations)
    {
      nodes := nodes + [n];
    }

    method AppendWay(w: OsmWay)
      modifies this
      ensures ways == old(ways) + [w]
      ensures nodes == old(nodes) && relations == old(relations)
    {
      ways := ways + [w];
    }

    method AppendRelation(r: OsmRelation)
      modifies this
      ensures relations == old(relations) + [r]
      ensures nodes == old(nodes) && ways == old(ways)
    {
      relations := relations + [r];
    }
  }
}
