/**
 * The identity-verification step: the photo map it fills by camera or by
 * upload, the pending photo awaiting confirmation, and the gate on its
 * Continue button. The legacy step and the modern wizard's step share these
 * handlers; the modern one keeps the map inside the wizard's form data.
 */
module KYC {
  import opened Common
  import opened Validators

  const ID_FRONT: string := "idFront"
  const ID_BACK: string := "idBack"
  const SELFIE: string := "selfie"

  /** The three slots the step offers, each with its own camera and upload buttons. */
  const PHOTO_KEYS: set<string> := {ID_FRONT, ID_BACK, SELFIE}

  const CAMERA_DENIED: string := "Camera access denied or not available. Please use the upload option instead."

  /** Photos as data URLs, keyed by slot. */
  type Photos = map<string, string>

  /** `photos[k]` is truthy: the slot holds a non-empty data URL. */
  predicate Present(photos: Photos, k: string) {
    k in photos && photos[k] != ""
  }

  /** `photos.idFront && photos.idBack && photos.selfie`. */
  predicate AllPhotos(photos: Photos) {
    Present(photos, ID_FRONT) && Present(photos, ID_BACK) && Present(photos, SELFIE)
  }

  /** All three slots filled means every offered slot is filled. */
  lemma AllPhotosIffEverySlot(photos: Photos)
    ensures AllPhotos(photos) <==> forall k :: k in PHOTO_KEYS ==> Present(photos, k)
  {
  }

  /** `handleSubmit`: the map is passed on only with all three photos. */
  function SubmitPhotos(photos: Photos): (r: Option<Photos>)
    ensures r.Some? <==> Present(photos, ID_FRONT) && Present(photos, ID_BACK) && Present(photos, SELFIE)
    ensures r.Some? ==> r.value == photos
  {
    if AllPhotos(photos) then Some(photos) else None
  }

  /** The Continue button is enabled with all photos and no upload in progress. */
  predicate ContinueEnabled(photos: Photos, uploadingFile: Option<string>) {
    AllPhotos(photos) && uploadingFile.None?
  }

  /** Pressing an enabled Continue always passes the photos on. */
  lemma EnabledContinueSubmits(photos: Photos, uploadingFile: Option<string>)
    requires ContinueEnabled(photos, uploadingFile)
    ensures SubmitPhotos(photos) == Some(photos)
  {
  }

  /** Removing one of the three photos disables Continue until it is taken again. */
  lemma RemovalBlocksSubmit(photos: Photos, k: string)
    requires k in PHOTO_KEYS
    ensures SubmitPhotos(photos - {k}).None?
  {
    assert !Present(photos - {k}, k);
  }

  /** The alert an upload can raise before any work starts. */
  datatype UploadStart = NoFile | NotAnImage | TooLarge | Started

  /**
   * The checks at the top of `handleFileUpload`: without a file or a slot
   * nothing happens; a non-image type is refused first, then a size above
   * 10 MiB.
   */
  function UploadCheck(slot: Option<string>, file: Option<(string, int)>): (r: UploadStart)
    ensures r == Started <==> slot.Some? && slot.value != "" && file.Some? && UploadAccepted(file.value.0, file.value.1)
    ensures file.Some? && slot.Some? && slot.value != "" && !StartsWith(file.value.0, "image/") ==> r == NotAnImage
    ensures r == TooLarge ==> file.Some? && StartsWith(file.value.0, "image/") && file.value.1 > MAX_UPLOAD_BYTES
  {
    if file.None? || slot.None? || slot.value == "" then NoFile
    else if !StartsWith(file.value.0, "image/") then NotAnImage
    else if file.value.1 > MAX_UPLOAD_BYTES then TooLarge
    else Started
  }

  class Step {
    var photos: Photos
    var currentCapture: Option<string>
    var confirmingPhoto: Option<string>
    var cameraError: Option<string>
    var uploadingFile: Option<string>

    /**
     * A pending photo belongs to an open camera; a camera error closes the
     * camera; the camera and the upload work on one of the three slots.
     */
    ghost predicate Valid()
      reads this
    {
      (currentCapture.Some? ==> currentCapture.value in PHOTO_KEYS)
      && (uploadingFile.Some? ==> uploadingFile.value in PHOTO_KEYS)
      && (confirmingPhoto.Some? ==> currentCapture.Some?)
      && (cameraError.Some? ==> currentCapture.None?)
    }

    /** The step opens on the photos of an earlier visit (`data.kycPhotos || {}`). */
    constructor (initial: Option<Photos>)
      ensures Valid()
      ensures photos == (if initial.Some? then initial.value else map[])
      ensures currentCapture.None? && confirmingPhoto.None? && cameraError.None? && uploadingFile.None?
    {
      photos := if initial.Some? then initial.value else map[];
      currentCapture := None;
      confirmingPhoto := None;
      cameraError := None;
      uploadingFile := None;
    }

    /**
     * `startCamera`, from the slot list (the camera is closed): the error is
     * cleared and the camera opens on the slot when access is `granted`,
     * otherwise the error is set and no camera is open.
     */
    method StartCamera(slot: string, granted: bool)
      requires Valid() && slot in PHOTO_KEYS && currentCapture.None?
      modifies this
      ensures Valid()
      ensures granted ==> currentCapture == Some(slot) && cameraError.None?
      ensures !granted ==> currentCapture.None? && cameraError == Some(CAMERA_DENIED)
      ensures photos == old(photos) && confirmingPhoto == old(confirmingPhoto) && uploadingFile == old(uploadingFile)
    {
      cameraError := None;
      if granted {
        currentCapture := Some(slot);
      } else {
        cameraError := Some(CAMERA_DENIED);
        currentCapture := None;
      }
    }

    /**
     * `capturePhoto`: with an open camera and a drawable frame (`ready`),
     * the frame becomes the pending photo; otherwise nothing changes.
     */
    method CapturePhoto(frame: string, ready: bool)
      requires Valid()
      modifies this
      ensures Valid()
      ensures confirmingPhoto == if ready && currentCapture.Some? then Some(frame) else old(confirmingPhoto)
      ensures photos == old(photos) && currentCapture == old(currentCapture)
      ensures cameraError == old(cameraError) && uploadingFile == old(uploadingFile)
    {
      if ready && currentCapture.Some? {
        confirmingPhoto := Some(frame);
      }
    }

    /**
     * `confirmPhoto`: a non-empty pending photo is stored under the open
     * slot and both are cleared; otherwise nothing changes.
     */
    method ConfirmPhoto()
      requires Valid()
      modifies this
      ensures Valid()
      ensures old(confirmingPhoto).Some? && old(confirmingPhoto).value != "" && old(currentCapture).Some? ==>
        photos == old(photos)[old(currentCapture).value := old(confirmingPhoto).value]
        && confirmingPhoto.None? && currentCapture.None?
      ensures !(old(confirmingPhoto).Some? && old(confirmingPhoto).value != "" && old(currentCapture).Some?) ==>
        photos == old(photos) && confirmingPhoto == old(confirmingPhoto) && currentCapture == old(currentCapture)
      ensures cameraError == old(cameraError) && uploadingFile == old(uploadingFile)
    {
      if confirmingPhoto.Some? && confirmingPhoto.value != "" && currentCapture.Some? {
        photos := photos[currentCapture.value := confirmingPhoto.value];
        confirmingPhoto := None;
        currentCapture := None;
      }
    }

    /** `retakePhoto`: only the pending photo is dropped; the camera stays open. */
    method RetakePhoto()
      requires Valid()
      modifies this
      ensures Valid()
      ensures confirmingPhoto.None?
      ensures photos == old(photos) && currentCapture == old(currentCapture)
      ensures cameraError == old(cameraError) && uploadingFile == old(uploadingFile)
    {
      confirmingPhoto := None;
    }

    /** The Cancel button of the live camera view (no pending photo): the camera closes. */
    method CancelCapture()
      requires Valid() && confirmingPhoto.None?
      modifies this
      ensures Valid()
      ensures currentCapture.None?
      ensures photos == old(photos) && confirmingPhoto == old(confirmingPhoto)
      ensures cameraError == old(cameraError) && uploadingFile == old(uploadingFile)
    {
      currentCapture := None;
    }

    /** `removePhoto(k)`: slot `k` is emptied and every other slot is kept. */
    method RemovePhoto(k: string)
      requires Valid()
      modifies this
      ensures Valid()
      ensures photos == old(photos) - {k}
      ensures forall j :: j != k ==> (j in photos <==> j in old(photos))
      ensures forall j :: j != k && j in photos ==> photos[j] == old(photos)[j]
      ensures currentCapture == old(currentCapture) && confirmingPhoto == old(confirmingPhoto)
      ensures cameraError == old(cameraError) && uploadingFile == old(uploadingFile)
    {
      photos := photos - {k};
    }

    /**
     * The synchronous part of `handleFileUpload`, from the slot list (the
     * upload buttons are disabled while another upload runs): a file that
     * passes the checks marks its slot as uploading.
     */
    method BeginUpload(slot: Option<string>, file: Option<(string, int)>) returns (r: UploadStart)
      requires Valid() && uploadingFile.None? && (slot.Some? ==> slot.value in PHOTO_KEYS)
      modifies this
      ensures Valid()
      ensures r == UploadCheck(slot, file)
      ensures uploadingFile == if r == Started then slot else None
      ensures photos == old(photos) && currentCapture == old(currentCapture)
      ensures confirmingPhoto == old(confirmingPhoto) && cameraError == old(cameraError)
    {
      r := UploadCheck(slot, file);
      if r == Started {
        uploadingFile := slot;
      }
    }

    /**
     * The rest of `handleFileUpload`: the compressed image (`None` when
     * compression failed) is stored under the uploading slot, and the
     * `finally` clears the uploading mark either way.
     */
    method FinishUpload(compressed: Option<string>)
      requires Valid() && uploadingFile.Some?
      modifies this
      ensures Valid()
      ensures photos == if compressed.Some? then old(photos)[old(uploadingFile).value := compressed.value] else old(photos)
      ensures uploadingFile.None?
      ensures currentCapture == old(currentCapture) && confirmingPhoto == old(confirmingPhoto)
      ensures cameraError == old(cameraError)
    {
      if compressed.Some? {
        photos := photos[uploadingFile.value := compressed.value];
      }
      uploadingFile := None;
    }

    /** `handleSubmit`, through the Continue button, which is disabled while an upload runs. */
    method Continue() returns (next: Option<Photos>)
      requires Valid()
      ensures next.Some? <==> ContinueEnabled(photos, uploadingFile)
      ensures next.Some? ==> next.value == photos
    {
      if uploadingFile.Some? {
        next := None;
      } else {
        next := SubmitPhotos(photos);
      }
    }
  }
}
