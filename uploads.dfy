/** What the admin form's submit sends: up to three multipart uploads, issued
    one after another inside a single `try`. */
module Uploads {
  import opened Net
  import opened Slots

  /** The three upload endpoints of a stylist. */
  datatype Endpoint = Profile | WorkImages | WorkVideos

  /** The position of an endpoint in the order submit awaits the uploads. */
  function Order(e: Endpoint): nat {
    match e
    case Profile => 0
    case WorkImages => 1
    case WorkVideos => 2
  }

  /** One upload request: the stylist whose id is in the path, the endpoint,
      and the files appended under the form field `media`, in order. */
  datatype Upload = Upload(stylistId: Key, endpoint: Endpoint, media: seq<Media>)

  /** The chosen files of a slot list, in slot order; slots without a file
      contribute nothing. */
  function FilesOf<P>(slots: seq<Slot<P>>): (r: seq<Media>)
    ensures |r| <= |slots|
    ensures r == [] <==> forall k :: 0 <= k < |slots| ==> slots[k].file.None?
  {
    if slots == [] then []
    else (if slots[0].file.Some? then [slots[0].file.value] else []) + FilesOf(slots[1..])
  }

  /** Collecting files distributes over concatenation, so `FilesOf` keeps slot order. */
  lemma {:induction false} FilesOfConcat<P>(a: seq<Slot<P>>, b: seq<Slot<P>>)
    ensures FilesOf(a + b) == FilesOf(a) + FilesOf(b)
  {
    if a == [] {
      assert a + b == b;
    } else {
      assert (a + b)[0] == a[0];
      assert (a + b)[1..] == a[1..] + b;
      FilesOfConcat(a[1..], b);
      assert FilesOf(a + b) == (if a[0].file.Some? then [a[0].file.value] else []) + FilesOf(a[1..] + b);
    }
  }

  /** A file is collected iff some slot holds it. */
  lemma {:induction false} FilesOfMembers<P>(slots: seq<Slot<P>>, m: Media)
    ensures m in FilesOf(slots) <==> exists k :: 0 <= k < |slots| && slots[k].file == Some(m)
  {
    if slots != [] {
      FilesOfMembers(slots[1..], m);
      if m in FilesOf(slots[1..]) {
        var k :| 0 <= k < |slots[1..]| && slots[1..][k].file == Some(m);
        assert slots[k + 1].file == Some(m);
      }
      if exists k :: 0 <= k < |slots| && slots[k].file == Some(m) {
        var k :| 0 <= k < |slots| && slots[k].file == Some(m);
        if k > 0 {
          assert slots[1..][k - 1].file == Some(m);
        }
      }
    }
  }

  /** The `forEach` that appends every chosen file of a slot list to a
      fresh FormData; the result is the FormData's `media` entries. */
  method CollectFiles<P>(slots: seq<Slot<P>>) returns (media: seq<Media>)
    ensures media == FilesOf(slots)
  {
    media := [];
    var i := 0;
    while i < |slots|
      invariant 0 <= i <= |slots|
      invariant media == FilesOf(slots[..i])
    {
      if slots[i].file.Some? {
        media := media + [slots[i].file.value];
      }
      assert slots[..i + 1] == slots[..i] + [slots[i]];
      FilesOfConcat(slots[..i], [slots[i]]);
      i := i + 1;
    }
    assert slots[..i] == slots;
  }

  /** The profile upload, present iff a profile image is chosen. */
  function ProfilePart(stylistId: Key, profile: Option<Media>): seq<Upload> {
    if profile.Some? then [Upload(stylistId, Profile, [profile.value])] else []
  }

  /** A batch upload, present iff its FormData has a `media` entry. */
  function BatchPart(stylistId: Key, endpoint: Endpoint, files: seq<Media>): seq<Upload> {
    if files != [] then [Upload(stylistId, endpoint, files)] else []
  }

  /** The uploads a submit intends to issue, in the order it awaits them,
      computed from the form as it stands when submit starts. */
  function Plan(stylistId: Key, profile: Option<Media>, images: seq<ImageSlot>, videos: seq<VideoSlot>): seq<Upload> {
    ProfilePart(stylistId, profile)
    + BatchPart(stylistId, WorkImages, FilesOf(images))
    + BatchPart(stylistId, WorkVideos, FilesOf(videos))
  }

  /** Some upload of the sequence goes to `endpoint`. */
  predicate Targets(uploads: seq<Upload>, endpoint: Endpoint) {
    exists k :: 0 <= k < |uploads| && uploads[k].endpoint == endpoint
  }

  /** Every upload of the sequence settles without rejecting. */
  predicate AllAccepted(uploads: seq<Upload>, rejects: set<Endpoint>) {
    forall k :: 0 <= k < |uploads| ==> uploads[k].endpoint !in rejects
  }

  /** The uploads actually issued when the endpoints in `rejects` reject:
      the awaits run in order and the first rejection jumps to `catch`,
      so the plan is cut after its first rejected upload. */
  function Issued(plan: seq<Upload>, rejects: set<Endpoint>): (r: seq<Upload>)
    ensures |r| <= |plan| && r == plan[..|r|]
  {
    if plan == [] then []
    else if plan[0].endpoint in rejects then [plan[0]]
    else [plan[0]] + Issued(plan[1..], rejects)
  }

  /** The plan issues each endpoint at most once, in the order profile,
      work images, work videos, and every upload carries at least one file
      for the selected stylist. */
  lemma {:induction false} PlanShape(stylistId: Key, profile: Option<Media>, images: seq<ImageSlot>, videos: seq<VideoSlot>)
    ensures var plan := Plan(stylistId, profile, images, videos);
      && |plan| <= 3
      && (forall k :: 0 <= k < |plan| ==> plan[k].stylistId == stylistId && plan[k].media != [])
      && (forall i, j :: 0 <= i < j < |plan| ==> Order(plan[i].endpoint) < Order(plan[j].endpoint))
  {
    var plan := Plan(stylistId, profile, images, videos);
    var p := ProfilePart(stylistId, profile);
    var w := BatchPart(stylistId, WorkImages, FilesOf(images));
    var v := BatchPart(stylistId, WorkVideos, FilesOf(videos));
    assert plan == p + w + v;
    forall k | 0 <= k < |plan|
      ensures plan[k].stylistId == stylistId && plan[k].media != []
      ensures plan[k].endpoint == (if k < |p| then Profile else if k < |p| + |w| then WorkImages else WorkVideos)
      ensures k < |p| ==> plan[k] == p[k]
    {
      if k < |p| {
        assert plan[k] == p[k];
      } else if k < |p| + |w| {
        assert plan[k] == w[k - |p|];
      } else {
        assert plan[k] == v[k - |p| - |w|];
      }
    }
  }

  /** The profile upload is issued iff a profile image is chosen, and it
      carries exactly that image. */
  lemma {:induction false} PlanProfile(stylistId: Key, profile: Option<Media>, images: seq<ImageSlot>, videos: seq<VideoSlot>)
    ensures var plan := Plan(stylistId, profile, images, videos);
      && (Targets(plan, Profile) <==> profile.Some?)
      && (forall k :: 0 <= k < |plan| && plan[k].endpoint == Profile ==> plan[k].media == [profile.value])
  {
    var plan := Plan(stylistId, profile, images, videos);
    var p := ProfilePart(stylistId, profile);
    var w := BatchPart(stylistId, WorkImages, FilesOf(images));
    var v := BatchPart(stylistId, WorkVideos, FilesOf(videos));
    assert plan == p + w + v;
    forall k | 0 <= k < |plan|
      ensures plan[k].stylistId == stylistId && plan[k].media != []
      ensures plan[k].endpoint == (if k < |p| then Profile else if k < |p| + |w| then WorkImages else WorkVideos)
      ensures k < |p| ==> plan[k] == p[k]
    {
      if k < |p| {
        assert plan[k] == p[k];
      } else if k < |p| + |w| {
        assert plan[k] == w[k - |p|];
      } else {
        assert plan[k] == v[k - |p| - |w|];
      }
    }
    if profile.Some? {
      assert plan[0].endpoint == Profile;
    }
  }

  /** The work-images upload is issued iff at least one image slot has a
      file, and it carries exactly the chosen files in slot order. */
  lemma {:induction false} PlanWorkImages(stylistId: Key, profile: Option<Media>, images: seq<ImageSlot>, videos: seq<VideoSlot>)
    ensures var plan := Plan(stylistId, profile, images, videos);
      && (Targets(plan, WorkImages) <==> exists k :: 0 <= k < |images| && images[k].file.Some?)
      && (forall k :: 0 <= k < |plan| && plan[k].endpoint == WorkImages ==> plan[k].media == FilesOf(images))
  {
    var plan := Plan(stylistId, profile, images, videos);
    var p := ProfilePart(stylistId, profile);
    if FilesOf(images) != [] {
      assert plan[|p|].endpoint == WorkImages;
    }
  }

  /** The work-videos upload is issued iff at least one video slot has a
      file, and it carries exactly the chosen files in slot order. */
  lemma {:induction false} PlanWorkVideos(stylistId: Key, profile: Option<Media>, images: seq<ImageSlot>, videos: seq<VideoSlot>)
    ensures var plan := Plan(stylistId, profile, images, videos);
      && (Targets(plan, WorkVideos) <==> exists k :: 0 <= k < |videos| && videos[k].file.Some?)
      && (forall k :: 0 <= k < |plan| && plan[k].endpoint == WorkVideos ==> plan[k].media == FilesOf(videos))
  {
    var plan := Plan(stylistId, profile, images, videos);
    if FilesOf(videos) != [] {
      assert plan[|plan| - 1].endpoint == WorkVideos;
    }
  }

  /** With no file chosen anywhere nothing is uploaded, whatever the server
      would do, and the submit counts as a success. */
  lemma {:induction false} NoFilesNoUploads(stylistId: Key, images: seq<ImageSlot>, videos: seq<VideoSlot>, rejects: set<Endpoint>)
    requires forall k :: 0 <= k < |images| ==> images[k].file.None?
    requires forall k :: 0 <= k < |videos| ==> videos[k].file.None?
    ensures Plan(stylistId, None, images, videos) == []
    ensures Issued(Plan(stylistId, None, images, videos), rejects) == []
    ensures AllAccepted(Plan(stylistId, None, images, videos), rejects)
  {
  }

  /** With only a profile image chosen, exactly one upload is issued: the profile one. */
  lemma {:induction false} OnlyProfileUpload(stylistId: Key, m: Media, images: seq<ImageSlot>, videos: seq<VideoSlot>, rejects: set<Endpoint>)
    requires forall k :: 0 <= k < |images| ==> images[k].file.None?
    requires forall k :: 0 <= k < |videos| ==> videos[k].file.None?
    ensures Issued(Plan(stylistId, Some(m), images, videos), rejects) == [Upload(stylistId, Profile, [m])]
  {
  }

  /** When no upload rejects, every planned upload is issued. */
  lemma {:induction false} IssuedAllAccepted(plan: seq<Upload>, rejects: set<Endpoint>)
    requires AllAccepted(plan, rejects)
    ensures Issued(plan, rejects) == plan
  {
    if plan != [] {
      assert AllAccepted(plan[1..], rejects) by {
        forall k | 0 <= k < |plan[1..]| ensures plan[1..][k].endpoint !in rejects {
          assert plan[1..][k] == plan[k + 1];
        }
      }
      IssuedAllAccepted(plan[1..], rejects);
      assert plan == [plan[0]] + plan[1..];
    }
  }

  /** When some upload rejects, the issued uploads are the plan up to and
      including the first rejected one; the later ones are never sent. */
  lemma {:induction false} IssuedFirstRejection(plan: seq<Upload>, rejects: set<Endpoint>)
    requires !AllAccepted(plan, rejects)
    ensures exists k :: (0 <= k < |plan|
      && plan[k].endpoint in rejects
      && (forall j :: 0 <= j < k ==> plan[j].endpoint !in rejects)
      && Issued(plan, rejects) == plan[..k + 1])
  {
    if plan[0].endpoint in rejects {
      assert Issued(plan, rejects) == plan[..1];
    } else {
      var tail := plan[1..];
      assert !AllAccepted(tail, rejects) by {
        var k :| 0 <= k < |plan| && plan[k].endpoint in rejects;
        assert tail[k - 1] == plan[k];
      }
      IssuedFirstRejection(tail, rejects);
      var k :| 0 <= k < |tail| && tail[k].endpoint in rejects
        && (forall j :: 0 <= j < k ==> tail[j].endpoint !in rejects)
        && Issued(tail, rejects) == tail[..k + 1];
      assert Issued(plan, rejects) == [plan[0]] + Issued(tail, rejects);
      assert plan[..k + 2] == [plan[0]] + tail[..k + 1];
      assert plan[k + 1].endpoint in rejects by {
        assert plan[k + 1] == tail[k];
      }
      forall j | 0 <= j < k + 1
        ensures plan[j].endpoint !in rejects
      {
        if j > 0 {
          assert plan[j] == tail[j - 1];
        }
      }
    }
  }

  /** A plan that starts with `x` is accepted iff `x` and the rest are. */
  lemma AcceptedCons(x: Upload, t: seq<Upload>, rejects: set<Endpoint>)
    ensures AllAccepted([x] + t, rejects) <==> x.endpoint !in rejects && AllAccepted(t, rejects)
  {
    var s := [x] + t;
    assert s[0] == x;
    assert forall k :: 0 <= k < |t| ==> s[k + 1] == t[k];
    if x.endpoint !in rejects && AllAccepted(t, rejects) {
      forall k | 0 <= k < |s|
        ensures s[k].endpoint !in rejects
      {
        if k > 0 {
          assert s[k] == t[k - 1];
        }
      }
    }
  }

  /** Issuing a plan that starts with `x`: one step of `Issued`. */
  lemma IssuedCons(x: Upload, t: seq<Upload>, rejects: set<Endpoint>)
    ensures Issued([x] + t, rejects) == if x.endpoint in rejects then [x] else [x] + Issued(t, rejects)
  {
    assert ([x] + t)[0] == x;
    assert ([x] + t)[1..] == t;
  }

  /** Issuing a plan in two parts: the second part is reached only if no
      upload of the first part rejected. */
  lemma {:induction false} IssuedAppend(a: seq<Upload>, b: seq<Upload>, rejects: set<Endpoint>)
    ensures AllAccepted(a, rejects) ==> Issued(a + b, rejects) == a + Issued(b, rejects)
    ensures !AllAccepted(a, rejects) ==> Issued(a + b, rejects) == Issued(a, rejects)
    ensures AllAccepted(a + b, rejects) <==> AllAccepted(a, rejects) && AllAccepted(b, rejects)
  {
    if a == [] {
      assert a + b == b;
    } else {
      var x, t := a[0], a[1..];
      assert a == [x] + t;
      assert a + b == [x] + (t + b);
      IssuedAppend(t, b, rejects);
      AcceptedCons(x, t, rejects);
      AcceptedCons(x, t + b, rejects);
      IssuedCons(x, t, rejects);
      IssuedCons(x, t + b, rejects);
    }
  }

  /** The plan's three parts issued in turn: each later part is reached
      only if no upload before it rejected. */
  lemma {:induction false} IssuedParts(a: seq<Upload>, b: seq<Upload>, c: seq<Upload>, rejects: set<Endpoint>)
    ensures Issued(a + b + c, rejects) ==
      if !AllAccepted(a, rejects) then Issued(a, rejects)
      else if !AllAccepted(b, rejects) then a + Issued(b, rejects)
      else a + b + Issued(c, rejects)
    ensures AllAccepted(a + b + c, rejects) <==>
      AllAccepted(a, rejects) && AllAccepted(b, rejects) && AllAccepted(c, rejects)
  {
    IssuedAppend(a + b, c, rejects);
    IssuedAppend(a, b, rejects);
  }

  /** A plan part of at most one upload is issued whole. */
  lemma {:induction false} IssuedSingle(part: seq<Upload>, rejects: set<Endpoint>)
    requires |part| <= 1
    ensures Issued(part, rejects) == part
    ensures AllAccepted(part, rejects) <==> part == [] || part[0].endpoint !in rejects
  {
  }
}
