/**
 * The team wall of src/components/controllers/sections/TeamSection.js: member cards laid out
 * three to a row, a modal for the selected member, and the modal's social links spaced one
 * unit apart.
 */
module TeamSection {
  import opened Wrappers

  datatype Member = Member(name: string, role: string)

  /** `teamMembers`. */
  const TeamMembers: seq<Member> := [Member("Alex Kumar", "President")]

  datatype Cell = Cell(row: nat, col: nat)

  /** The grid cell of card `index`: `row = floor(index / 3)`, `col = index % 3`. */
  function GridCell(index: nat): (c: Cell)
    ensures c.col < 3
    ensures index == 3 * c.row + c.col
  {
    Cell(index / 3, index % 3)
  }

  datatype Position = Position(x: int, y: int, z: int)

  /** The card's position in the grid group: columns at -3, 0 and 3, rows 3 apart going down from 2. */
  function CardPosition(index: nat): (p: Position)
    ensures p.x == -3 || p.x == 0 || p.x == 3
    ensures p.y <= 2 && p.z == 0
    ensures index < 3 ==> p.y == 2
  {
    var c := GridCell(index);
    Position((c.col as int - 1) * 3, 2 - 3 * c.row, 0)
  }

  /** Different cards never share a position. */
  lemma CardPositionsDistinct(i: nat, j: nat)
    requires i != j
    ensures CardPosition(i) != CardPosition(j)
  {
  }

  /** The x offset of social link `k` in the modal. */
  function SocialLinkX(k: nat): (x: real)
    ensures x + 0.5 == k as real
  {
    k as real - 0.5
  }

  /** Successive social links sit exactly one unit apart. */
  lemma SocialLinksOneApart(k: nat)
    ensures SocialLinkX(k + 1) - SocialLinkX(k) == 1.0
  {
  }

  class TeamView {
    var selectedMember: Option<Member>

    constructor ()
      ensures selectedMember == None
    {
      selectedMember := None;
    }

    /** The modal renders exactly while a member is selected. */
    predicate ModalOpen()
      reads this
    {
      selectedMember.Some?
    }

    /** Clicking card `index` selects that member. */
    method SelectMember(index: nat)
      requires index < |TeamMembers|
      modifies this
      ensures selectedMember == Some(TeamMembers[index]) && ModalOpen()
    {
      selectedMember := Some(TeamMembers[index]);
    }

    /** The modal's close button clears the selection. */
    method Close()
      modifies this
      ensures selectedMember == None && !ModalOpen()
    {
      selectedMember := None;
    }
  }
}
