/** The thumbnail picker: accepts the first chosen or dropped file when its
    media type is an image type, and can clear the held image. The held
    image stands for the parent's state that `onImageChange` updates. */
module Thumbnail {
  import opened Types
  import opened JsStrings

  /** The media-type guard applied to every chosen or dropped file. */
  function IsImageType(mimeType: string): (r: bool)
    ensures r <==> |mimeType| >= 6 && mimeType[..6] == "image/"
  {
    StartsWith(mimeType, "image/")
  }

  /** `files?.[0]`: the first file of a selection or drop, if there is one. */
  function FirstFile(files: Option<seq<FileInfo>>): (r: Option<FileInfo>)
    ensures r.Some? <==> files.Some? && |files.value| > 0
    ensures r.Some? ==> r.value == files.value[0]
  {
    if files.Some? && |files.value| > 0 then Some(files.value[0]) else None
  }

  class ThumbnailUpload {
    /** The image currently held by the parent. */
    var image: Option<UploadedImage>
    /** Whether the hidden file input is mounted (the ref is set). */
    var inputMounted: bool
    /** The hidden file input's `value`. */
    var inputValue: string

    constructor (image: Option<UploadedImage>)
      ensures this.image == image && inputMounted && inputValue == ""
    {
      this.image := image;
      inputMounted := true;
      inputValue := "";
    }

    /** `processFile`: a file whose media type is not an image type is
        ignored; any other becomes the held image, with the reader's data
        URL as its base64 and the object URL as its preview. The reader's
        result and the object URL are given, since they come from the browser. */
    method ProcessFile(file: FileInfo, dataUrl: string, previewUrl: string)
      modifies this`image
      ensures IsImageType(file.mimeType) ==> image == Some(UploadedImage(file, previewUrl, dataUrl))
      ensures !IsImageType(file.mimeType) ==> image == old(image)
    {
      if !IsImageType(file.mimeType) {
        return;
      }
      image := Some(UploadedImage(file, previewUrl, dataUrl));
    }

    /** The input's change handler: only the first selected file is
        considered; no file, no change. */
    method HandleFileChange(files: Option<seq<FileInfo>>, dataUrl: string, previewUrl: string)
      modifies this`image
      ensures FirstFile(files).None? ==> image == old(image)
      ensures FirstFile(files).Some? && IsImageType(files.value[0].mimeType) ==>
        image == Some(UploadedImage(files.value[0], previewUrl, dataUrl))
      ensures FirstFile(files).Some? && !IsImageType(files.value[0].mimeType) ==> image == old(image)
    {
      var file := FirstFile(files);
      if file.Some? {
        ProcessFile(file.value, dataUrl, previewUrl);
      }
    }

    /** The drop handler: the same path as a selection, on the dropped files. */
    method HandleDrop(files: Option<seq<FileInfo>>, dataUrl: string, previewUrl: string)
      modifies this`image
      ensures FirstFile(files).None? ==> image == old(image)
      ensures FirstFile(files).Some? && IsImageType(files.value[0].mimeType) ==>
        image == Some(UploadedImage(files.value[0], previewUrl, dataUrl))
      ensures FirstFile(files).Some? && !IsImageType(files.value[0].mimeType) ==> image == old(image)
    {
      var file := FirstFile(files);
      if file.Some? {
        ProcessFile(file.value, dataUrl, previewUrl);
      }
    }

    /** `clearImage`: no image is held afterwards, and a mounted input is
        reset so the same file can be chosen again. */
    method ClearImage()
      modifies this`image, this`inputValue
      ensures image == None
      ensures inputMounted ==> inputValue == ""
      ensures !inputMounted ==> inputValue == old(inputValue)
    {
      image := None;
      if inputMounted {
        inputValue := "";
      }
    }
  }
}
