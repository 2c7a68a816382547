/** The admin media-upload page: a stylist picker and a form of upload slots. */
module Admin {
  import opened Net
  import opened Slots
  import opened Uploads

  /** A stylist as the directory endpoint lists it. */
  datatype DirectoryStylist = DirectoryStylist(id: Key, name: string)

  /** The body of the stylist-directory response. */
  datatype DirectoryData = DirectoryData(success: bool, stylists: seq<DirectoryStylist>)

  /** Which message the submit handler alerts, if any. */
  datatype Report = NotSubmitted | AllUploaded | UploadError

  /** The option chosen in the stylist `<select>`: the first listed stylist
      whose id is the number `parsed` (`None` when `parseInt` gives NaN),
      or `None` when there is no such stylist. */
  function FindStylist(stylists: seq<DirectoryStylist>, parsed: Option<int>): (r: Option<DirectoryStylist>)
    ensures r.None? <==> parsed.None? || forall k :: 0 <= k < |stylists| ==> stylists[k].id != Number(parsed.value)
    ensures r.Some? ==> parsed.Some? && exists k :: (0 <= k < |stylists| && stylists[k] == r.value
      && stylists[k].id == Number(parsed.value)
      && forall j :: 0 <= j < k ==> stylists[j].id != Number(parsed.value))
  {
    if parsed.None? || stylists == [] then None
    else if stylists[0].id == Number(parsed.value) then Some(stylists[0])
    else
      var r := FindStylist(stylists[1..], parsed);
      assert r.Some? ==> stylists[1..][0] == stylists[1];
      r
  }

  class AdminPage {
    var stylists: seq<DirectoryStylist>
    var selectedStylist: Option<DirectoryStylist>
    var profileImage: Option<Media>
    var profilePreview: Preview
    var isUploading: bool
    var workImageInputs: seq<ImageSlot>
    var workVideoInputs: seq<VideoSlot>
    var nextInputId: nat
    /** Every upload request the page has sent, in order. */
    ghost var uploads: seq<Upload>

    /** Ids in each slot list are strictly increasing (hence pairwise
        distinct) and below the next id to be handed out, so the id the
        next added slot gets is used by no slot yet. */
    ghost predicate Valid()
      reads this
      ensures Valid() ==> !HasId(workImageInputs, nextInputId) && !HasId(workVideoInputs, nextInputId)
    {
      && Increasing(workImageInputs) && IdsBelow(workImageInputs, nextInputId)
      && Increasing(workVideoInputs) && IdsBelow(workVideoInputs, nextInputId)
    }

    /** The form as the page first renders it and as a full upload leaves it. */
    ghost predicate FormIsInitial()
      reads this
      ensures FormIsInitial() ==> Valid()
    {
      && profileImage == None && profilePreview == ""
      && workImageInputs == [Slot(0, None, None)]
      && workVideoInputs == [Slot(0, None, ())]
      && nextInputId == 1
    }

    constructor ()
      ensures Valid() && FormIsInitial()
      ensures stylists == [] && selectedStylist == None && !isUploading && uploads == []
    {
      stylists := [];
      selectedStylist := None;
      profileImage := None;
      profilePreview := "";
      isUploading := false;
      workImageInputs := [Slot(0, None, None)];
      workVideoInputs := [Slot(0, None, ())];
      nextInputId := 1;
      uploads := [];
    }

    /** The directory fetch run on mount: the list is replaced only when the
        body reports `success`. */
    method FetchStylists(response: Response<DirectoryData>)
      modifies this`stylists
      ensures stylists == if response.Success? && response.data.success then response.data.stylists else old(stylists)
    {
      if response.Success? && response.data.success {
        stylists := response.data.stylists;
      }
    }

    /** The `<select>`'s change handler. */
    method SelectStylist(parsed: Option<int>)
      modifies this`selectedStylist
      ensures selectedStylist == FindStylist(stylists, parsed)
    {
      selectedStylist := FindStylist(stylists, parsed);
    }

    /** The profile file input's change handler: nothing happens when no
        file was chosen. */
    method ChooseProfileImage(chosen: Option<Media>, url: Preview)
      modifies this`profileImage, this`profilePreview
      ensures chosen.Some? ==> profileImage == chosen && profilePreview == url
      ensures chosen.None? ==> profileImage == old(profileImage) && profilePreview == old(profilePreview)
    {
      if chosen.Some? {
        profileImage := chosen;
        profilePreview := url;
      }
    }

    /** Appends an empty work-image slot with the next id. */
    method AddWorkImageInput()
      requires Valid()
      modifies this`workImageInputs, this`nextInputId
      ensures Valid()
      ensures workImageInputs == old(workImageInputs) + [Slot(old(nextInputId), None, None)]
      ensures nextInputId == old(nextInputId) + 1
    {
      workImageInputs := Appended(workImageInputs, nextInputId, None);
      nextInputId := nextInputId + 1;
    }

    /** Appends an empty work-video slot with the next id. */
    method AddWorkVideoInput()
      requires Valid()
      modifies this`workVideoInputs, this`nextInputId
      ensures Valid()
      ensures workVideoInputs == old(workVideoInputs) + [Slot(old(nextInputId), None, ())]
      ensures nextInputId == old(nextInputId) + 1
    {
      workVideoInputs := Appended(workVideoInputs, nextInputId, ());
      nextInputId := nextInputId + 1;
    }

    /** Deletes the work-image slots with id `id`. */
    method RemoveWorkImageInput(id: nat)
      requires Valid()
      modifies this`workImageInputs
      ensures Valid()
      ensures workImageInputs == RemoveById(old(workImageInputs), id)
      ensures !HasId(old(workImageInputs), id) ==> workImageInputs == old(workImageInputs)
    {
      RemoveKeepsIncreasing(workImageInputs, id);
      if !HasId(workImageInputs, id) {
        RemoveAbsent(workImageInputs, id);
      }
      workImageInputs := RemoveById(workImageInputs, id);
    }

    /** Deletes the work-video slots with id `id`. */
    method RemoveWorkVideoInput(id: nat)
      requires Valid()
      modifies this`workVideoInputs
      ensures Valid()
      ensures workVideoInputs == RemoveById(old(workVideoInputs), id)
      ensures !HasId(old(workVideoInputs), id) ==> workVideoInputs == old(workVideoInputs)
    {
      RemoveKeepsIncreasing(workVideoInputs, id);
      if !HasId(workVideoInputs, id) {
        RemoveAbsent(workVideoInputs, id);
      }
      workVideoInputs := RemoveById(workVideoInputs, id);
    }

    /** A work-image file input's change handler: the slot with id `id`
        gets the file and the object URL made for it. */
    method ChooseWorkImage(id: nat, chosen: Option<Media>, url: Preview)
      requires Valid()
      modifies this`workImageInputs
      ensures Valid()
      ensures chosen.Some? ==> workImageInputs == SetFileById(old(workImageInputs), id, chosen.value, Some(url))
      ensures chosen.None? ==> workImageInputs == old(workImageInputs)
    {
      if chosen.Some? {
        SetFileKeepsInvariant(workImageInputs, id, chosen.value, Some(url), nextInputId);
        workImageInputs := SetFileById(workImageInputs, id, chosen.value, Some(url));
      }
    }

    /** A work-video file input's change handler: the slot with id `id`
        gets the file. */
    method ChooseWorkVideo(id: nat, chosen: Option<Media>)
      requires Valid()
      modifies this`workVideoInputs
      ensures Valid()
      ensures chosen.Some? ==> workVideoInputs == SetFileById(old(workVideoInputs), id, chosen.value, ())
      ensures chosen.None? ==> workVideoInputs == old(workVideoInputs)
    {
      if chosen.Some? {
        SetFileKeepsInvariant(workVideoInputs, id, chosen.value, (), nextInputId);
        workVideoInputs := SetFileById(workVideoInputs, id, chosen.value, ());
      }
    }

    /** One batch step of the submit handler's `try`: when the FormData
        built from `files` has a `media` entry, the upload is awaited, and
        its rejection jumps to `catch`. On entry the log holds `base` and
        the issued part of `done`, the uploads planned before this step, and
        `skipped` says that one of them already jumped to `catch`. */
    method AwaitBatch(stylistId: Key, endpoint: Endpoint, files: seq<Media>, skipped: bool, rejects: set<Endpoint>,
                      ghost base: seq<Upload>, ghost done: seq<Upload>)
      returns (failed: bool)
      requires uploads == base + Issued(done, rejects) && skipped == !AllAccepted(done, rejects)
      modifies this`uploads
      ensures var planned := done + BatchPart(stylistId, endpoint, files);
        uploads == base + Issued(planned, rejects) && failed == !AllAccepted(planned, rejects)
    {
      ghost var part := BatchPart(stylistId, endpoint, files);
      IssuedSingle(part, rejects);
      IssuedAppend(done, part, rejects);
      if !skipped {
        IssuedAllAccepted(done, rejects);
      }
      if files == [] {
        assert done + part == done;
      }
      failed := skipped;
      if !skipped && files != [] {
        uploads := uploads + [Upload(stylistId, endpoint, files)];
        failed := endpoint in rejects;
      }
    }

    /** The body of the submit handler's `try` up to the success alert: it
        builds and awaits the uploads one after another and reports whether
        one of them rejected, which skips the ones after it. */
    method AwaitUploads(stylistId: Key, rejects: set<Endpoint>) returns (failed: bool)
      modifies this`uploads
      ensures var plan := Plan(stylistId, profileImage, workImageInputs, workVideoInputs);
        uploads == old(uploads) + Issued(plan, rejects) && failed == !AllAccepted(plan, rejects)
    {
      ghost var base := uploads;
      ghost var profilePart := ProfilePart(stylistId, profileImage);
      IssuedSingle(profilePart, rejects);
      failed := false;
      if profileImage.Some? {
        uploads := uploads + [Upload(stylistId, Profile, [profileImage.value])];
        failed := Profile in rejects;
      }

      var imageFiles := CollectFiles(workImageInputs);
      failed := AwaitBatch(stylistId, WorkImages, imageFiles, failed, rejects, base, profilePart);
      ghost var done := profilePart + BatchPart(stylistId, WorkImages, imageFiles);

      var videoFiles := CollectFiles(workVideoInputs);
      failed := AwaitBatch(stylistId, WorkVideos, videoFiles, failed, rejects, base, done);
    }

    /** The reset after a fully successful submit: the form returns to its
        initial state, which satisfies the id invariant. */
    method ResetForm()
      modifies this`profileImage, this`profilePreview, this`workImageInputs, this`workVideoInputs, this`nextInputId
      ensures Valid() && FormIsInitial()
    {
      profileImage := None;
      profilePreview := "";
      workImageInputs := [Slot(0, None, None)];
      workVideoInputs := [Slot(0, None, ())];
      nextInputId := 1;
    }

    /** The form's submit handler. `rejects` holds the endpoints whose
        request would reject, which happens only when it fails at the
        network level: the response is never read. Without a selected
        stylist it returns at once; otherwise it awaits the planned uploads
        in order, stops at the first rejection, and resets the form only
        when none rejected. */
    method Submit(rejects: set<Endpoint>) returns (report: Report)
      requires Valid()
      modifies this`isUploading, this`profileImage, this`profilePreview,
        this`workImageInputs, this`workVideoInputs, this`nextInputId, this`uploads
      ensures Valid()
      ensures old(selectedStylist).None? ==>
        report == NotSubmitted && unchanged(this)
      ensures old(selectedStylist).Some? ==>
        var plan := Plan(old(selectedStylist).value.id, old(profileImage), old(workImageInputs), old(workVideoInputs));
        && uploads == old(uploads) + Issued(plan, rejects)
        && !isUploading
        && report == (if AllAccepted(plan, rejects) then AllUploaded else UploadError)
        && (AllAccepted(plan, rejects) ==> FormIsInitial())
        && (!AllAccepted(plan, rejects) ==>
              && profileImage == old(profileImage) && profilePreview == old(profilePreview)
              && workImageInputs == old(workImageInputs) && workVideoInputs == old(workVideoInputs)
              && nextInputId == old(nextInputId))
    {
      if selectedStylist.None? {
        return NotSubmitted;
      }
      isUploading := true;
      var failed := AwaitUploads(selectedStylist.value.id, rejects);
      if !failed {
        ResetForm();
        report := AllUploaded;
      } else {
        report := UploadError;
      }
      isUploading := false;
    }
  }
}
