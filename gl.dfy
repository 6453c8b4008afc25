/**
 * The slice of OpenGL and stb_image the texture loader touches: a texture
 * name allocator (`glGenTextures`), a log of image uploads (`glTexImage2D`),
 * decoded images, and the choice of pixel format from a channel count.
 */
module Gl {
  import opened Wrappers

  /** A decoded image as `stbi_load` reports it. */
  datatype Image = Image(width: int, height: int, channels: int)

  datatype PixelFormat = Red | Rgb | Rgba

  /** The channel count each pixel format stands for. */
  function ChannelCount(f: PixelFormat): nat
  {
    match f
    case Red => 1
    case Rgb => 3
    case Rgba => 4
  }

  /**
   * The format chosen for an image with `channels` channels: three independent
   * tests with no default, so any other count leaves the format unassigned
   * (`None`).
   */
  function SelectFormat(channels: int): (format: Option<PixelFormat>)
    ensures format == Some(Red) <==> channels == 1
    ensures format == Some(Rgb) <==> channels == 3
    ensures format == Some(Rgba) <==> channels == 4
    ensures format.None? <==> channels != 1 && channels != 3 && channels != 4
  {
    var unset: Option<PixelFormat> := None;
    var afterRed := if channels == 1 then Some(Red) else unset;
    var afterRgb := if channels == 3 then Some(Rgb) else afterRed;
    if channels == 4 then Some(Rgba) else afterRgb
  }

  /** A format is selected for exactly the channel count it stands for. */
  lemma SelectFormatInverse(channels: int, f: PixelFormat)
    ensures SelectFormat(channels) == Some(f) <==> ChannelCount(f) == channels
  {
    match f
    case Red =>
    case Rgb =>
    case Rgba =>
  }

  /** One `glTexImage2D` call: the bound texture name, the format argument (maybe unassigned) and the size. */
  datatype Upload = Upload(name: nat, format: Option<PixelFormat>, width: int, height: int)

  /** The texture objects of the graphics context. */
  class Gpu {
    /** Every name `glGenTextures` has handed out, in order. */
    var generated: seq<nat>
    /** Every image upload, in order. */
    var uploads: seq<Upload>
    var nextName: nat

    ghost predicate Valid()
      reads this
    {
      && 0 < nextName
      && forall i :: 0 <= i < |generated| ==> 0 < generated[i] < nextName
    }

    constructor ()
      ensures Valid() && generated == [] && uploads == []
    {
      generated, uploads, nextName := [], [], 1;
    }

    /** `glGenTextures(1, &ID)`: a non-zero name never handed out before. */
    method GenTexture() returns (name: nat)
      requires Valid()
      modifies this
      ensures Valid()
      ensures 0 < name && name !in old(generated)
      ensures generated == old(generated) + [name] && uploads == old(uploads)
    {
      name := nextName;
      generated := generated + [name];
      nextName := nextName + 1;
    }

    /** `glTexImage2D` on the texture bound under `name`. */
    method TexImage2D(name: nat, format: Option<PixelFormat>, image: Image)
      requires Valid()
      modifies this
      ensures Valid()
      ensures generated == old(generated)
      ensures uploads == old(uploads) + [Upload(name, format, image.width, image.height)]
    {
      uploads := uploads + [Upload(name, format, image.width, image.height)];
    }
  }
}
