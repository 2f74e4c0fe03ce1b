/**
 * The flat gallery of src/components/sections/GallerySection.jsx: four image planes laid out two
 * to a row, and a modal plane for the selected image that closes when clicked.
 */
module GalleryPanel {
  import opened Wrappers

  datatype Image = Image(id: nat, title: string, url: string)

  /** The `images` list. */
  const Images: seq<Image> := [
    Image(1, "Startup Weekend", "/images/gallery/startup.jpg"),
    Image(2, "Hackathon", "/images/gallery/hackathon.jpg"),
    Image(3, "Workshop", "/images/gallery/workshop.jpg"),
    Image(4, "E-Summit", "/images/gallery/esummit.jpg")]

  datatype Position = Position(x: real, y: real, z: real)

  /**
   * The plane of image `index`: `row = floor(index / 2)`, `col = index % 2`,
   * x = col * 3 - 1.5, y = -2 * row.
   */
  function PlanePosition(index: nat): (p: Position)
    ensures p.x == -1.5 || p.x == 1.5
    ensures p.y <= 0.0 && p.z == 0.0
    ensures (p.x == -1.5 <==> index % 2 == 0)
    ensures p.y == -2.0 * ((index / 2) as real)
  {
    var row, col := index / 2, index % 2;
    Position(col as real * 3.0 - 1.5, row as real * -2.0, 0.0)
  }

  /** Different indices get different planes. */
  lemma PlanePositionsDistinct(i: nat, j: nat)
    requires i != j
    ensures PlanePosition(i) != PlanePosition(j)
  {
  }

  class GalleryView {
    var selectedImage: Option<Image>

    constructor ()
      ensures selectedImage == None
    {
      selectedImage := None;
    }

    /** The modal renders exactly while an image is selected. */
    predicate ModalOpen()
      reads this
    {
      selectedImage.Some?
    }

    /** Clicking image `index` selects it. */
    method SelectImage(index: nat)
      requires index < |Images|
      modifies this
      ensures selectedImage == Some(Images[index]) && ModalOpen()
    {
      selectedImage := Some(Images[index]);
    }

    /** Clicking the modal plane clears the selection. */
    method ClickModal()
      modifies this
      ensures selectedImage == None && !ModalOpen()
    {
      selectedImage := None;
    }
  }
}
