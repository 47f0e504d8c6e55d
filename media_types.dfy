/** Value types shared by the camera controllers: an optional value, the camera
    position with its `opposite()` helper, and the file types that name the
    extension of an output file (`AVFileType.stringValue()` and the video and
    image allow-lists). */
module MediaTypes {

  datatype Option<T> = None | Some(value: T) {
    /** Swift's `??`: the wrapped value, or `default` when there is none. */
    function GetOr(default: T): T {
      match this
      case Some(v) => v
      case None => default
    }
  }

  // ---------------------------------------------------------------------------
  // Camera position
  // ---------------------------------------------------------------------------

  /** `AVCaptureDevice.Position`, which `cameraLocation` holds. */
  datatype Position = Front | Back | Unspecified

  /** The camera on the other side; an unspecified position stays unspecified. */
  function Opposite(p: Position): (q: Position)
    ensures p != Unspecified ==> q != p && q != Unspecified
    ensures p == Unspecified ==> q == Unspecified
  {
    match p
    case Front => Back
    case Back => Front
    case Unspecified => Unspecified
  }

  /** Switching twice returns to the camera one started with. */
  lemma OppositeIsInvolution(p: Position)
    ensures Opposite(Opposite(p)) == p
  {
  }

  // ---------------------------------------------------------------------------
  // File types
  // ---------------------------------------------------------------------------

  /** `AVFileType`: the types the extension switch names, and any other raw value. */
  datatype FileType =
    | Mov | Mp4 | M4v | M4a | Mobile3GPP | Mobile3GPP2 | Caf | Wav | Aiff | Aifc
    | Amr | Mp3 | Au | Ac3 | Eac3 | Jpg | Dng | Heic | Avci | Heif | Tif
    | Other(rawValue: string)

  /** The types `stringValue()` handles; any other type stops the program. */
  predicate HasExtension(ft: FileType) {
    !ft.Other?
  }

  /** `AVFileType.stringValue()`: the extension given to an output file. */
  function StringValue(ft: FileType): (ext: string)
    requires HasExtension(ft)
    ensures 2 <= |ext| <= 4
  {
    match ft
    case Mov => "mov"
    case Mp4 => "mp4"
    case M4v => "m4v"
    case M4a => "m4a"
    case Mobile3GPP => "3gp"
    case Mobile3GPP2 => "3g2"
    case Caf => "caf"
    case Wav => "wav"
    case Aiff => "aif"
    case Aifc => "aifc"
    case Amr => "amr"
    case Mp3 => "mp3"
    case Au => "au"
    case Ac3 => "ac3"
    case Eac3 => "eac3"
    case Jpg => "jpg"
    case Dng => "dng"
    case Heic => "heic"
    case Avci => "avci"
    case Heif => "heif"
    case Tif => "tiff"
  }

  /** Reference reading of an extension back to the file type it names. */
  function FileTypeForExtension(ext: string): Option<FileType> {
    if ext == "mov" then Some(Mov)
    else if ext == "mp4" then Some(Mp4)
    else if ext == "m4v" then Some(M4v)
    else if ext == "m4a" then Some(M4a)
    else if ext == "3gp" then Some(Mobile3GPP)
    else if ext == "3g2" then Some(Mobile3GPP2)
    else if ext == "caf" then Some(Caf)
    else if ext == "wav" then Some(Wav)
    else if ext == "aif" then Some(Aiff)
    else if ext == "aifc" then Some(Aifc)
    else if ext == "amr" then Some(Amr)
    else if ext == "mp3" then Some(Mp3)
    else if ext == "au" then Some(Au)
    else if ext == "ac3" then Some(Ac3)
    else if ext == "eac3" then Some(Eac3)
    else if ext == "jpg" then Some(Jpg)
    else if ext == "dng" then Some(Dng)
    else if ext == "heic" then Some(Heic)
    else if ext == "avci" then Some(Avci)
    else if ext == "heif" then Some(Heif)
    else if ext == "tiff" then Some(Tif)
    else None
  }

  /** Every handled type's extension reads back as that type. */
  lemma ExtensionRoundTrip(ft: FileType)
    requires HasExtension(ft)
    ensures FileTypeForExtension(StringValue(ft)) == Some(ft)
  {
  }

  /** No two handled file types share an extension. */
  lemma {:induction false} ExtensionsAreDistinct(a: FileType, b: FileType)
    requires HasExtension(a) && HasExtension(b)
    requires StringValue(a) == StringValue(b)
    ensures a == b
  {
    ExtensionRoundTrip(a);
    ExtensionRoundTrip(b);
  }

  /** `isVideoFileTypeSupported`: the types a recording may be written as. */
  predicate IsVideoFileTypeSupported(ft: FileType) {
    ft == Mov || ft == Mp4 || ft == Mobile3GPP || ft == Mobile3GPP2
  }

  /** `isImageFileTypeSupported`: the types a still image may be saved as. */
  predicate IsImageFileTypeSupported(ft: FileType) {
    ft == Heic || ft == Jpg || ft == Tif
  }

  /** A supported video type always has an extension (so naming a recording never
      stops the program) and it is one of the four video extensions. */
  lemma VideoTypesHaveVideoExtensions(ft: FileType)
    requires IsVideoFileTypeSupported(ft)
    ensures HasExtension(ft)
    ensures StringValue(ft) in {"mov", "mp4", "3gp", "3g2"}
  {
  }

  /** A supported image type always has an extension, one of the three image ones. */
  lemma ImageTypesHaveImageExtensions(ft: FileType)
    requires IsImageFileTypeSupported(ft)
    ensures HasExtension(ft)
    ensures StringValue(ft) in {"heic", "jpg", "tiff"}
  {
  }

  /** The allow-lists are exact: an extension names a supported video (image) type
      precisely when it is one of the video (image) extensions. */
  lemma {:induction false} AllowListsByExtension(ext: string)
    ensures (exists ft :: FileTypeForExtension(ext) == Some(ft) && IsVideoFileTypeSupported(ft))
            <==> ext in {"mov", "mp4", "3gp", "3g2"}
    ensures (exists ft :: FileTypeForExtension(ext) == Some(ft) && IsImageFileTypeSupported(ft))
            <==> ext in {"heic", "jpg", "tiff"}
  {
    var r := FileTypeForExtension(ext);
    if r.Some? {
      ExtensionRoundTrip(r.value);
    }
  }

  /** No file type is on both allow-lists. */
  lemma AllowListsAreDisjoint(ft: FileType)
    ensures !(IsVideoFileTypeSupported(ft) && IsImageFileTypeSupported(ft))
  {
  }
}
