/** A managed file whose previous content can be put back
    (anvil_events/reconciliation/file_adapter.py). Modes, temporary files and symbolic links
    are not modelled; a destination is optional content. */
module ManagedFile {
  import opened Basics

  datatype FileState<B> = FileState(destination: Option<B>, previous: Option<B>)

  /** A write that fails leaves the destination as it was, but the snapshot is already taken. */
  function ApplyAfter<B>(s: FileState<B>, data: B, valid: bool, writeFails: bool): (FileState<B>, bool) {
    if !valid then (s, true)
    else if writeFails then (FileState(s.destination, s.destination), true)
    else (FileState(Some(data), s.destination), false)
  }

  function RollbackAfter<B>(s: FileState<B>, writeFails: bool): (FileState<B>, bool) {
    if s.previous.Some? && writeFails then (s, true) else (s.(destination := s.previous), false)
  }

  /** Rolling back after an apply, successful or not once the content was valid, restores the file. */
  lemma RollbackUndoesApply<B>(s: FileState<B>, data: B, writeFails: bool)
    ensures RollbackAfter(ApplyAfter(s, data, true, writeFails).0, false).0.destination == s.destination
  {
  }

  /** A rollback puts back what was remembered, or removes the file if there was none; only writing can fail,
      and then everything stays as it is. */
  lemma RollbackExactly<B>(s: FileState<B>, writeFails: bool)
    ensures var (s', raised) := RollbackAfter(s, writeFails);
      && (raised <==> s.previous.Some? && writeFails)
      && s'.previous == s.previous && s'.destination == if raised then s.destination else s.previous
  {
  }

  class ManagedFileAdapter<B(==)> {
    var destination: Option<B>
    var previous: Option<B>

    constructor (destination: Option<B>)
      ensures Contents() == FileState(destination, None)
    {
      this.destination := destination;
      previous := None;
    }

    ghost function Contents(): FileState<B>
      reads this
    {
      FileState(destination, previous)
    }

    method Apply(data: B, valid: bool, writeFails: bool) returns (raised: bool)
      modifies this
      ensures (Contents(), raised) == ApplyAfter(old(Contents()), data, valid, writeFails)
    {
      if !valid {
        return true;
      }
      previous := destination;
      if writeFails {
        return true;
      }
      destination := Some(data);
      return false;
    }

    method Rollback(writeFails: bool) returns (raised: bool)
      modifies this
      ensures (Contents(), raised) == RollbackAfter(old(Contents()), writeFails)
    {
      if previous.None? {
        destination := None;
        return false;
      }
      if writeFails {
        return true;
      }
      destination := previous;
      return false;
    }
  }
}

/** The adapter that merges an authority patch into one JSON file
    (anvil_events/reconciliation/json_merge_adapter.py). */
module JsonMergeAdapter {
  import opened Basics
  import opened JsonMerge
  import opened ManagedFile

  /** File content: a JSON text in one of many layouts, or something that does not parse. The
      encoder always writes layout 0. Digests are injective, so contents stand for theirs. */
  datatype Content = Text(document: JSON, layout: nat) | Garbage(raw: string)

  datatype AdapterError = NotAnObject | CredentialShaped | TouchesProtected | ChangedAfterPreview | WriteFailed

  /** `sensitive`: the credential-shape check, which is not modelled, refuses the patch. */
  datatype PatchArtifact = PatchArtifact(content: Content, sensitive: bool)

  datatype AdapterState = AdapterState(file: FileState<Content>, previewed: Option<Content>)

  function Encoded(document: JSON): Content {
    Text(document, 0)
  }

  function ParseObject(content: Content): Result<JSON, AdapterError> {
    if content.Text? && content.document.Object? then Success(content.document) else Failure(NotAnObject)
  }

  /** What is read from the destination; a missing file reads as an encoded empty object. */
  function Bytes(destination: Option<Content>): Content {
    match destination
    case None => Encoded(Object(map[]))
    case Some(content) => content
  }

  function Current(destination: Option<Content>): Result<JSON, AdapterError> {
    ParseObject(Bytes(destination))
  }

  ghost function PatchOf(artifact: PatchArtifact, protected: seq<Path>): Result<JSON, AdapterError> {
    match ParseObject(artifact.content)
    case Failure(e) => Failure(e)
    case Success(patch) =>
      if artifact.sensitive then Failure(CredentialShaped)
      else if exists i :: 0 <= i < |protected| && Touches(protected[i], patch) then Failure(TouchesProtected)
      else Success(patch)
  }

  ghost function PreviewAfter(s: AdapterState, artifact: PatchArtifact, protected: seq<Path>): Result<AdapterState, AdapterError> {
    match (PatchOf(artifact, protected), Current(s.file.destination))
    case (Failure(e), _) => Failure(e)
    case (_, Failure(e)) => Failure(e)
    case (_, _) => Success(s.(previewed := Some(Bytes(s.file.destination))))
  }

  /** The merged document that `apply` would write. */
  ghost function Merged(s: AdapterState, artifact: PatchArtifact, protected: seq<Path>): Result<JSON, AdapterError> {
    match (PatchOf(artifact, protected), Current(s.file.destination))
    case (Failure(e), _) => Failure(e)
    case (_, Failure(e)) => Failure(e)
    case (Success(patch), Success(document)) =>
      if s.previewed.Some? && s.previewed.value != Bytes(s.file.destination) then Failure(ChangedAfterPreview)
      else Success(MergePatch(document, patch))
  }

  ghost function MergeAfter(s: AdapterState, artifact: PatchArtifact, protected: seq<Path>, writeFails: bool)
    : (AdapterState, Option<AdapterError>)
  {
    match Merged(s, artifact, protected)
    case Failure(e) => (s, Some(e))
    case Success(document) =>
      var (file, raised) := ManagedFile.ApplyAfter(s.file, Encoded(document), true, writeFails);
      (s.(file := file), if raised then Some(WriteFailed) else None)
  }

  ghost function Verifies(destination: Option<Content>, artifact: PatchArtifact, protected: seq<Path>): Result<bool, AdapterError> {
    match (PatchOf(artifact, protected), Current(destination))
    case (Failure(e), _) => Failure(e)
    case (_, Failure(e)) => Failure(e)
    case (Success(patch), Success(document)) => Success(MergePatch(document, patch) == document)
  }

  // ---------------------------------------------------------------------------------
  // What is accepted
  // ---------------------------------------------------------------------------------

  /** The artifact is an object, not credential-shaped, and no document would notice it at a protected path. */
  ghost predicate Acceptable(artifact: PatchArtifact, protected: seq<Path>) {
    && artifact.content.Text? && artifact.content.document.Object?
    && !artifact.sensitive
    && forall i :: 0 <= i < |protected| ==> KeepsPath(protected[i], artifact.content.document)
  }

  /** The destination is missing or holds an object. */
  predicate Mergeable(destination: Option<Content>) {
    destination.Some? ==> destination.value.Text? && destination.value.document.Object?
  }

  /** What a preview read, if there was one, is what is there; a missing file reads as an empty object. */
  predicate AsPreviewed(s: AdapterState) {
    s.previewed.Some? ==>
      s.previewed.value == if s.file.destination.None? then Text(Object(map[]), 0) else s.file.destination.value
  }

  function Document(destination: Option<Content>): JSON
    requires Mergeable(destination)
  {
    if destination.None? then Object(map[]) else destination.value.document
  }

  lemma PatchExactly(artifact: PatchArtifact, protected: seq<Path>)
    requires forall i :: 0 <= i < |protected| ==> protected[i] != []
    ensures PatchOf(artifact, protected).Success? <==> Acceptable(artifact, protected)
    ensures PatchOf(artifact, protected).Success? ==> PatchOf(artifact, protected).value == artifact.content.document
    ensures PatchOf(artifact, protected).Failure? ==>
              if !(artifact.content.Text? && artifact.content.document.Object?) then PatchOf(artifact, protected).error == NotAnObject
              else PatchOf(artifact, protected).error == if artifact.sensitive then CredentialShaped else TouchesProtected
  {
    if artifact.content.Text? && artifact.content.document.Object? {
      forall i | 0 <= i < |protected|
        ensures Touches(protected[i], artifact.content.document) <==> !KeepsPath(protected[i], artifact.content.document)
      {
        TouchesIsExact(protected[i], artifact.content.document);
      }
    }
  }

  /** An apply whose write does not fail succeeds if and only if the artifact is acceptable, the destination
      can be merged into, and it is as previewed. It then writes the merged document, remembers what was
      there, and otherwise changes nothing; a write that fails leaves the destination alone. */
  lemma ApplySucceedsExactly(s: AdapterState, artifact: PatchArtifact, protected: seq<Path>, writeFails: bool)
    requires forall i :: 0 <= i < |protected| ==> protected[i] != []
    ensures var (s', error), accepted := MergeAfter(s, artifact, protected, writeFails),
        Acceptable(artifact, protected) && Mergeable(s.file.destination) && AsPreviewed(s);
      && (error == None <==> accepted && !writeFails)
      && (error == Some(WriteFailed) <==> accepted && writeFails)
      && s'.previewed == s.previewed
      && s'.file.previous == (if accepted then s.file.destination else s.file.previous)
      && s'.file.destination ==
           if accepted && !writeFails
           then Some(Text(MergePatch(Document(s.file.destination), artifact.content.document), 0))
           else s.file.destination
  {
    PatchExactly(artifact, protected);
  }

  /** A preview succeeds if and only if the artifact is acceptable and the destination can be merged into;
      it remembers what it read. */
  lemma PreviewSucceedsExactly(s: AdapterState, artifact: PatchArtifact, protected: seq<Path>)
    requires forall i :: 0 <= i < |protected| ==> protected[i] != []
    ensures var r := PreviewAfter(s, artifact, protected);
      && (r.Success? <==> Acceptable(artifact, protected) && Mergeable(s.file.destination))
      && (r.Success? ==> r.value.file == s.file && r.value.previewed.Some? && AsPreviewed(r.value))
  {
    PatchExactly(artifact, protected);
  }

  /** So does a verification; it answers yes if and only if every path of the patch is met. */
  lemma VerifySucceedsExactly(destination: Option<Content>, artifact: PatchArtifact, protected: seq<Path>)
    requires forall i :: 0 <= i < |protected| ==> protected[i] != []
    ensures var r := Verifies(destination, artifact, protected);
      && (r.Success? <==> Acceptable(artifact, protected) && Mergeable(destination))
      && (r.Success? ==> (r.value <==> AllMet(Document(destination), artifact.content.document)))
  {
    PatchExactly(artifact, protected);
    if Acceptable(artifact, protected) && Mergeable(destination) {
      VerifyMeansMet(Document(destination), artifact.content.document);
    }
  }

  // ---------------------------------------------------------------------------------
  // What an apply keeps
  // ---------------------------------------------------------------------------------

  /** Verification succeeds right after every successful apply, and then the patch is met in full. */
  lemma ApplyThenVerify(s: AdapterState, artifact: PatchArtifact, protected: seq<Path>)
    requires MergeAfter(s, artifact, protected, false).1 == None
    ensures Verifies(MergeAfter(s, artifact, protected, false).0.file.destination, artifact, protected) == Success(true)
    ensures AllMet(Current(MergeAfter(s, artifact, protected, false).0.file.destination).value, artifact.content.document)
  {
    var patch, document := PatchOf(artifact, protected).value, Current(s.file.destination).value;
    MergeIdempotent(document, patch);
    VerifyMeansMet(MergePatch(document, patch), patch);
  }

  /** No apply changes what a protected path holds, or makes it appear or disappear. */
  lemma ApplyKeepsProtected(s: AdapterState, artifact: PatchArtifact, protected: seq<Path>, i: nat)
    requires i < |protected| && protected[i] != []
    requires MergeAfter(s, artifact, protected, false).1 == None
    ensures Lookup(Current(MergeAfter(s, artifact, protected, false).0.file.destination).value, protected[i])
         == Lookup(Current(s.file.destination).value, protected[i])
  {
    UntouchedIsKept(protected[i], Current(s.file.destination).value, PatchOf(artifact, protected).value);
  }

  /** Between preview and apply the file may have changed: the apply then goes ahead exactly if the
      same bytes are read again. (A missing file and an encoded empty object read alike.) */
  lemma ApplyRefusesStalePreview(s: AdapterState, artifact: PatchArtifact, protected: seq<Path>, now: Option<Content>)
    requires PreviewAfter(s, artifact, protected).Success? && Current(now).Success?
    ensures var later := PreviewAfter(s, artifact, protected).value.(file := s.file.(destination := now));
      MergeAfter(later, artifact, protected, false).1 == None <==> Bytes(now) == Bytes(s.file.destination)
  {
  }

  /** Rolling back a successful apply restores the file exactly, a missing one included. */
  lemma RollbackRestores(s: AdapterState, artifact: PatchArtifact, protected: seq<Path>)
    requires MergeAfter(s, artifact, protected, false).1 == None
    ensures RollbackAfter(MergeAfter(s, artifact, protected, false).0.file, false)
         == (FileState(s.file.destination, s.file.destination), false)
  {
    RollbackUndoesApply(s.file, Encoded(Merged(s, artifact, protected).value), false);
  }

  class JSONMergeAdapter {
    const protected: seq<Path>
    const file: ManagedFileAdapter<Content>
    var previewed: Option<Content>

    constructor (destination: Option<Content>, protected: seq<Path>)
      ensures Contents() == AdapterState(FileState(destination, None), None)
      ensures this.protected == protected && fresh(file)
    {
      this.protected := protected;
      file := new ManagedFileAdapter(destination);
      previewed := None;
    }

    ghost function Contents(): AdapterState
      reads this, file
    {
      AdapterState(file.Contents(), previewed)
    }

    method Patch(artifact: PatchArtifact) returns (r: Result<JSON, AdapterError>)
      ensures r == PatchOf(artifact, protected)
    {
      r := ParseObject(artifact.content);
      if r.Failure? {
        return;
      }
      if artifact.sensitive {
        return Failure(CredentialShaped);
      }
      for i := 0 to |protected|
        invariant forall j :: 0 <= j < i ==> !Touches(protected[j], r.value)
      {
        var touched := TouchesPath(protected[i], r.value);
        if touched {
          return Failure(TouchesProtected);
        }
      }
    }

    method Preview(artifact: PatchArtifact) returns (error: Option<AdapterError>)
      modifies `previewed
      ensures match PreviewAfter(old(Contents()), artifact, protected)
              case Success(after) => error == None && Contents() == after
              case Failure(e) => error == Some(e) && Contents() == old(Contents())
    {
      var patch := Patch(artifact);
      if patch.Failure? {
        return Some(patch.error);
      }
      var before := Bytes(file.destination);
      var document := ParseObject(before);
      if document.Failure? {
        return Some(document.error);
      }
      previewed := Some(before);
      return None;
    }

    method Apply(artifact: PatchArtifact, writeFails: bool) returns (error: Option<AdapterError>)
      modifies file
      ensures (Contents(), error) == MergeAfter(old(Contents()), artifact, protected, writeFails)
    {
      var patch := Patch(artifact);
      if patch.Failure? {
        return Some(patch.error);
      }
      var before := Bytes(file.destination);
      var document := ParseObject(before);
      if document.Failure? {
        return Some(document.error);
      }
      if previewed.Some? && before != previewed.value {
        return Some(ChangedAfterPreview);
      }
      var merged := Merge(document.value, patch.value);
      var raised := file.Apply(Encoded(Object(merged)), true, writeFails);
      return if raised then Some(WriteFailed) else None;
    }

    method Verify(artifact: PatchArtifact) returns (verified: Result<bool, AdapterError>)
      ensures verified == Verifies(file.destination, artifact, protected)
    {
      var patch := Patch(artifact);
      if patch.Failure? {
        return Failure(patch.error);
      }
      var document := Current(file.destination);
      if document.Failure? {
        return Failure(document.error);
      }
      var merged := Merge(document.value, patch.value);
      return Success(Object(merged) == document.value);
    }

    method Rollback(writeFails: bool) returns (raised: bool)
      modifies file
      ensures (file.Contents(), raised) == RollbackAfter(old(file.Contents()), writeFails)
      ensures previewed == old(previewed)
    {
      raised := file.Rollback(writeFails);
    }
  }
}
