/** The artifact service stubs (backend/src/services/artifacts.js): the
    object paths `uploadArtifact` reports for an upload and the manifest
    `prepareAssets` describes. The generated artifact id (clock and random
    text) is a parameter. */
module Artifacts {
  import opened Wrappers
  import opened Json
  import opened Strings

  const Bucket := "artifacts"

  /** An artifact id as the destructured argument gives it: None for the
      falsy values (undefined, null, ""). */
  type ArtifactId = Option<string>

  datatype ArtifactError = Error(message: string) | TypeError

  /** `artifacts/<id>/` */
  function Folder(id: string): string { Bucket + "/" + id + "/" }

  function ImagePath(id: string, index: nat): string { Folder(id) + "image_" + NatToString(index) + ".png" }

  function AudioPath(id: string): string { Folder(id) + "audio.wav" }

  datatype Uploaded = Uploaded(artifactId: string, bucket: string, images: seq<string>, audio: Option<string>, metadata: Json)

  /** `uploadArtifact({images, audio, artifactId, metadata})`; a missing
      `images` is the empty list, a missing `metadata` the empty object. */
  function UploadArtifact(images: seq<Json>, audio: Json, artifactId: ArtifactId, metadata: Json,
                          generatedId: string): (r: Result<Uploaded, ArtifactError>)
    ensures r.Err? <==> images == []
    ensures r.Err? ==> r.error == Error("uploadArtifact requires at least one image")
    ensures r.Ok? ==> r.value.artifactId == (if artifactId.Some? && artifactId.value != "" then artifactId.value else generatedId)
    ensures r.Ok? ==> r.value.bucket == "artifacts" && r.value.metadata == metadata
    ensures r.Ok? ==> |r.value.images| == |images|
    ensures r.Ok? ==> forall i :: 0 <= i < |images| ==> r.value.images[i] == ImagePath(r.value.artifactId, i)
    ensures r.Ok? ==> (r.value.audio.Some? <==> Truthy(audio))
    ensures r.Ok? && r.value.audio.Some? ==> r.value.audio.value == AudioPath(r.value.artifactId)
  {
    if images == [] then Err(Error("uploadArtifact requires at least one image"))
    else
      var id := if artifactId.Some? && artifactId.value != "" then artifactId.value else generatedId;
      Ok(Uploaded(id, Bucket, seq(|images|, i requires 0 <= i < |images| => ImagePath(id, i)),
                  if Truthy(audio) then Some(AudioPath(id)) else None, metadata))
  }

  /** Different images of one artifact get different object paths, all in
      the artifact's folder, and none of them is the audio path. */
  lemma UploadPathsDistinct(images: seq<Json>, audio: Json, artifactId: ArtifactId, metadata: Json, generatedId: string)
    requires images != []
    ensures var u := UploadArtifact(images, audio, artifactId, metadata, generatedId).value;
      && (forall i, j :: 0 <= i < j < |u.images| ==> u.images[i] != u.images[j])
      && (forall i :: 0 <= i < |u.images| ==> u.images[i][..|Folder(u.artifactId)|] == Folder(u.artifactId))
      && (forall i :: 0 <= i < |u.images| ==> u.images[i] != AudioPath(u.artifactId))
  {
    var u := UploadArtifact(images, audio, artifactId, metadata, generatedId).value;
    forall i, j | 0 <= i < j < |u.images| ensures u.images[i] != u.images[j] {
      ImagePathsDiffer(u.artifactId, i, j);
    }
    forall i | 0 <= i < |u.images| ensures u.images[i] != AudioPath(u.artifactId) {
      var f := Folder(u.artifactId);
      assert u.images[i][|f|] == 'i';
      assert AudioPath(u.artifactId)[|f|] == 'a';
    }
  }

  /** Different indices give different image paths. */
  lemma ImagePathsDiffer(id: string, i: nat, j: nat)
    requires i != j
    ensures ImagePath(id, i) != ImagePath(id, j)
  {
    var prefix := Folder(id) + "image_";
    var a := ImagePath(id, i);
    var b := ImagePath(id, j);
    NatToStringValue(i);
    NatToStringValue(j);
    assert a == prefix + NatToString(i) + ".png";
    assert b == prefix + NatToString(j) + ".png";
    assert a[|prefix|..|a| - 4] == NatToString(i);
    assert b[|prefix|..|b| - 4] == NatToString(j);
  }

  datatype ImageEntry = ImageEntry(key: string, checksum: string, width: nat, height: nat)

  datatype AudioEntry = AudioEntry(key: string, durationSeconds: Option<real>)

  datatype Prepared = Prepared(artifactId: string, images: seq<ImageEntry>, audio: Option<AudioEntry>)

  /** `t` occurs in `s` starting at position `i`. */
  predicate OccursAt(s: string, t: string, i: nat)
  {
    i + |t| <= |s| && s[i..i + |t|] == t
  }

  /** `t` occurs in `s` as a run of consecutive characters. */
  predicate Contains(s: string, t: string)
  {
    exists i: nat | i <= |s| :: OccursAt(s, t, i)
  }

  /** `requestedKinds.includes(kind)`: membership for an array, a substring
      search for a string; null, numbers, booleans and objects have no
      `includes` method, and the call throws a TypeError (None). */
  function Includes(kinds: Json, kind: string): (r: Option<bool>)
    ensures r.Some? <==> kinds.JArr? || kinds.JStr?
  {
    match kinds
    case JArr(items) => Some(JStr(kind) in items)
    case JStr(s) => Some(Contains(s, kind))
    case _ => None
  }

  /** `prepareAssets({artifactId, requestedKinds, enrichments})`; missing
      kinds are ["images", "audio"], missing enrichments the empty object.
      Kinds that are neither an array nor a string fail on `.includes`;
      null enrichments fail on `.audioDuration`, which is read only when
      audio is requested. */
  function PrepareAssets(artifactId: ArtifactId, requestedKinds: Option<Json>, enrichments: Option<Json>): (r: Result<Prepared, ArtifactError>)
    ensures artifactId.None? || artifactId.value == "" ==> r == Err(Error("prepareAssets requires artifactId"))
    ensures (artifactId.Some? && artifactId.value != "" && requestedKinds.Some?
             && !requestedKinds.value.JArr? && !requestedKinds.value.JStr?) ==> r == Err(TypeError)
  {
    if artifactId.None? || artifactId.value == "" then Err(Error("prepareAssets requires artifactId"))
    else
      var id := artifactId.value;
      var kinds := if requestedKinds.Some? then requestedKinds.value else JArr([JStr("images"), JStr("audio")]);
      var extra := if enrichments.Some? then enrichments.value else JObj(map[]);
      match (Includes(kinds, "images"), Includes(kinds, "audio"))
      case (Some(wantImages), Some(wantAudio)) =>
        if wantAudio && extra.JNull? then Err(TypeError)
        else
          var images := if wantImages then [ImageEntry(ImagePath(id, 0), "stub-checksum", 512, 512)] else [];
          var duration := if Get(extra, "audioDuration").Some? && Truthy(Get(extra, "audioDuration").value) then Some(10.5) else None;
          var audio := if wantAudio then Some(AudioEntry(AudioPath(id), duration)) else None;
          Ok(Prepared(id, images, audio))
      case _ => Err(TypeError)
  }

  /** A string of kinds is searched, not split: "images,audio" asks for
      both, and so does "myimages audio". */
  lemma KindsAsText()
    ensures Includes(JStr("myimages audio"), "images") == Some(true)
    ensures Includes(JStr("myimages audio"), "audio") == Some(true)
    ensures Includes(JArr([JStr("myimages audio")]), "images") == Some(false)
  {
    assert OccursAt("myimages audio", "images", 2);
    assert OccursAt("myimages audio", "audio", 9);
  }

  /** The manifest lists one image exactly when images are requested and an
      audio entry exactly when audio is; its keys are the paths an upload
      of the same artifact reports; the duration is given exactly when the
      enrichments ask for it. */
  lemma PrepareMatchesUpload(artifactId: string, requestedKinds: Option<Json>, enrichments: Option<Json>,
                             images: seq<Json>, audio: Json, metadata: Json, generatedId: string)
    requires artifactId != "" && images != [] && Truthy(audio)
    requires requestedKinds.None? || requestedKinds.value.JArr? || requestedKinds.value.JStr?
    requires enrichments.None? || !enrichments.value.JNull?
    ensures var kinds := if requestedKinds.Some? then requestedKinds.value else JArr([JStr("images"), JStr("audio")]);
      var p := PrepareAssets(Some(artifactId), requestedKinds, enrichments);
      var u := UploadArtifact(images, audio, Some(artifactId), metadata, generatedId).value;
      && p.Ok? && p.value.artifactId == u.artifactId
      && (|p.value.images| == 1 <==> Includes(kinds, "images") == Some(true))
      && (p.value.images == [] <==> Includes(kinds, "images") == Some(false))
      && (p.value.audio.Some? <==> Includes(kinds, "audio") == Some(true))
      && (p.value.images != [] ==> p.value.images[0].key == u.images[0])
      && (p.value.audio.Some? ==> p.value.audio.value.key == u.audio.value)
      && (p.value.audio.Some? ==> (p.value.audio.value.durationSeconds.Some? <==>
            enrichments.Some? && Get(enrichments.value, "audioDuration").Some? && Truthy(Get(enrichments.value, "audioDuration").value)))
  {
  }
}
