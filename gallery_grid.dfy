/**
 * The 3D gallery of src/components/controllers/sections/GallerySection.js: nine images placed by
 * their index on a 3 x 3 grid centred on the origin, and a modal for the selected image.
 */
module GalleryGrid {
  import opened Wrappers

  datatype Image = Image(image: string, title: string)

  /** `galleryImages`. */
  const GalleryImages: seq<Image> := [
    Image("/assets/images/gallery/startup-weekend-1.jpg", "Startup Weekend 2023"),
    Image("/assets/images/gallery/hackathon-1.jpg", "Hackathon Finals"),
    Image("/assets/images/gallery/workshop-1.jpg", "AI Workshop"),
    Image("/assets/images/gallery/pitch-1.jpg", "Pitch Competition"),
    Image("/assets/images/gallery/networking-1.jpg", "Networking Event"),
    Image("/assets/images/gallery/awards-1.jpg", "Awards Ceremony"),
    Image("/assets/images/gallery/team-1.jpg", "Team Building"),
    Image("/assets/images/gallery/conference-1.jpg", "Tech Conference"),
    Image("/assets/images/gallery/summit-1.jpg", "E-Summit 2023")]

  datatype Position = Position(x: int, y: int, z: int)

  /**
   * Where `GalleryImage` puts image `index`: `row = floor(index / 3)`, `col = index % 3`,
   * x = (col - 1) * 4, y = (row - 1) * 3. The `position` prop it is given plays no part.
   */
  function ImagePosition(position: Position, index: nat): (p: Position)
    ensures p.x == -4 || p.x == 0 || p.x == 4
    ensures p.y >= -3 && p.z == 0
    ensures index == 3 * ((p.y + 3) / 3) + (p.x + 4) / 4
  {
    var row, col := index / 3, index % 3;
    Position((col - 1) * 4, (row - 1) * 3, 0)
  }

  /** The placement depends only on the index. */
  lemma PositionPropIgnored(p: Position, q: Position, index: nat)
    ensures ImagePosition(p, index) == ImagePosition(q, index)
  {
  }

  /** The nine cells of {-4, 0, 4} x {-3, 0, 3}. */
  const GridCells: set<Position> := {
    Position(-4, -3, 0), Position(0, -3, 0), Position(4, -3, 0),
    Position(-4, 0, 0), Position(0, 0, 0), Position(4, 0, 0),
    Position(-4, 3, 0), Position(0, 3, 0), Position(4, 3, 0)}

  /** Different indices get different cells. */
  lemma ImagePositionsDistinct(p: Position, i: nat, j: nat)
    requires i != j
    ensures ImagePosition(p, i) != ImagePosition(p, j)
  {
  }

  /** The nine images fill the nine grid cells, one each. */
  lemma NineImagesFillTheGrid(p: Position)
    ensures |GalleryImages| == 9
    ensures (set i | 0 <= i < |GalleryImages| :: ImagePosition(p, i)) == GridCells
  {
    var placed := set i | 0 <= i < |GalleryImages| :: ImagePosition(p, i);
    assert ImagePosition(p, 0) == Position(-4, -3, 0) && ImagePosition(p, 1) == Position(0, -3, 0);
    assert ImagePosition(p, 2) == Position(4, -3, 0) && ImagePosition(p, 3) == Position(-4, 0, 0);
    assert ImagePosition(p, 4) == Position(0, 0, 0) && ImagePosition(p, 5) == Position(4, 0, 0);
    assert ImagePosition(p, 6) == Position(-4, 3, 0) && ImagePosition(p, 7) == Position(0, 3, 0);
    assert ImagePosition(p, 8) == Position(4, 3, 0);
    assert forall c :: c in GridCells ==> c in placed;
  }

  class GalleryView {
    var selectedImage: Option<Image>

    constructor ()
      ensures selectedImage == None
    {
      selectedImage := None;
    }

    /** The modal renders exactly while an image is selected. */
    predicate ModalOpen()
      reads this
    {
      selectedImage.Some?
    }

    /** Clicking image `index` selects it. */
    method SelectImage(index: nat)
      requires index < |GalleryImages|
      modifies this
      ensures selectedImage == Some(GalleryImages[index]) && ModalOpen()
    {
      selectedImage := Some(GalleryImages[index]);
    }

    /** The modal's close clears the selection. */
    method Close()
      modifies this
      ensures selectedImage == None && !ModalOpen()
    {
      selectedImage := None;
    }
  }
}
