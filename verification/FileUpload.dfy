/** Multipart file upload: a pass over the parts of a message that pairs client ids with
    files as they arrive, restarted or handed to the buffered form reader when the message
    does not name its channel first. */
module FileUpload {
  import opened Lists
  import opened Wrappers

  /** A part without a form name is skipped; one without a file name is a form field. */
  datatype Part = Part(formName: string, fileName: string, content: string, readFails: bool)

  /** The parts, and whether the message ends after them or becomes unreadable. */
  datatype Message = Message(parts: seq<Part>, readable: bool)

  datatype Upload = Upload(channelId: string, part: Part, clientId: string)

  datatype Response = Response(fileInfos: seq<string>, clientIds: seq<string>)

  datatype Error =
    | ReadRequest
    | ReadFormValue(name: string)
    | MultipleChannelIds
    | InvalidParam(name: string)
    | NoPermission
    | UploadFailed(reason: string)
    | IncorrectNumberOfClientIds(ids: nat, files: nat)

  /** The permission check and the file store. */
  datatype Server = Server(mayUpload: string -> bool, store: Upload -> Result<string, string>)

  const MAX_FORM_VALUE := 10 * 1024
  const CHANNEL_ID := "channel_id"
  const CLIENT_IDS := "client_ids"
  const FILES := "files"

  predicate IsField(p: Part) {
    p.formName != "" && p.fileName == ""
  }

  predicate IsFile(p: Part) {
    p.formName != "" && p.fileName != ""
  }

  predicate IsFieldNamed(p: Part, name: string) {
    IsField(p) && p.formName == name
  }

  /** Form values are cut off silently. */
  function Value(p: Part): string {
    if |p.content| <= MAX_FORM_VALUE then p.content else p.content[..MAX_FORM_VALUE]
  }

  lemma ValueIs(p: Part)
    ensures Value(p) <= p.content && |Value(p)| == Min(|p.content|, 10240)
  {
  }

  // ---------- one pass ----------

  datatype Progress = Progress(
    channelId: string,
    clientIds: seq<string>,
    expectClientIds: bool,
    fileInfos: seq<string>,
    sentIds: seq<string>,
    nFiles: nat,
    uploads: seq<Upload>)

  /** The start of a pass; uploads are those already made by an earlier pass. */
  function Fresh(channelId: string, uploads: seq<Upload>): Progress {
    Progress(channelId, [], true, [], [], 0, uploads)
  }

  datatype Outcome =
    | Finished(result: Result<Response, Error>, channelId: string, uploads: seq<Upload>)
    | NeedsRestart(channelId: string, uploads: seq<Upload>)
    | NeedsForm(channelId: string, uploads: seq<Upload>)

  datatype Step = Continue(progress: Progress) | Stop(outcome: Outcome)

  function Fail(s: Progress, e: Error): Step {
    Stop(Finished(Err(e), s.channelId, s.uploads))
  }

  function FieldStep(s: Progress, p: Part, asStream: bool): Step {
    var v := Value(p);
    if p.readFails then Fail(s, ReadFormValue(p.formName))
    else if p.formName == CHANNEL_ID then
      if s.channelId != "" && s.channelId != v then Fail(s, MultipleChannelIds)
      else
        var s' := if v != "" then s.(channelId := v) else s;
        if asStream then Continue(s') else Stop(NeedsRestart(s'.channelId, s'.uploads))
    else if p.formName == CLIENT_IDS then
      if !s.expectClientIds then Fail(s, InvalidParam(CLIENT_IDS))
      else Continue(s.(clientIds := s.clientIds + [v]))
    else Fail(s, InvalidParam(p.formName))
  }

  function StoreFile(server: Server, u: Upload): Result<string, string> {
    if u.part.readFails then Err("read") else server.store(u)
  }

  /** The first file decides whether client ids are expected. */
  function ExpectsIds(s: Progress): bool {
    s.expectClientIds && !(s.nFiles == 0 && s.clientIds == [])
  }

  function FileStep(server: Server, s: Progress, p: Part, asStream: bool): Step {
    if s.channelId == "" && !asStream then Stop(NeedsForm(s.channelId, s.uploads))
    else if |s.channelId| != 26 then Fail(s, InvalidParam(CHANNEL_ID))
    else if !server.mayUpload(s.channelId) then Fail(s, NoPermission)
    else
      var wanted := ExpectsIds(s);
      if wanted && s.nFiles >= |s.clientIds| then Fail(s, InvalidParam(CLIENT_IDS))
      else
        var clientId := if wanted then s.clientIds[s.nFiles] else "";
        var u := Upload(s.channelId, p, clientId);
        var stored := StoreFile(server, u);
        var s' := s.(expectClientIds := wanted, uploads := s.uploads + [u]);
        if stored.Err? then Fail(s', UploadFailed(stored.error))
        else
          Continue(s'.(fileInfos := s.fileInfos + [stored.value],
                       sentIds := if wanted then s.sentIds + [clientId] else s.sentIds,
                       nFiles := s.nFiles + 1))
  }

  function PartStep(server: Server, s: Progress, p: Part, asStream: bool): Step {
    if p.formName == "" then Continue(s)
    else if p.fileName == "" then FieldStep(s, p, asStream)
    else FileStep(server, s, p, asStream)
  }

  function Finish(s: Progress): Outcome {
    if s.expectClientIds && |s.clientIds| != s.nFiles then
      Finished(Err(IncorrectNumberOfClientIds(|s.clientIds|, s.nFiles)), s.channelId, s.uploads)
    else
      Finished(Ok(Response(s.fileInfos, s.sentIds)), s.channelId, s.uploads)
  }

  function Pass(server: Server, s: Progress, m: Message, asStream: bool): Outcome
    decreases |m.parts|
  {
    if m.parts == [] then
      if m.readable then Finish(s) else Finished(Err(ReadRequest), s.channelId, s.uploads)
    else
      match PartStep(server, s, m.parts[0], asStream)
      case Stop(outcome) => outcome
      case Continue(s') => Pass(server, s', Rest(m), asStream)
  }

  function Rest(m: Message): Message
    requires m.parts != []
  {
    Message(m.parts[1..], m.readable)
  }

  /** A pass in stream mode always finishes. */
  lemma {:induction false} StreamFinishes(server: Server, s: Progress, m: Message)
    ensures Pass(server, s, m, true).Finished?
    decreases |m.parts|
  {
    if m.parts != [] && PartStep(server, s, m.parts[0], true).Continue? {
      StreamFinishes(server, PartStep(server, s, m.parts[0], true).progress, Rest(m));
    }
  }

  // ---------- the buffered form reader ----------

  function FieldValues(parts: seq<Part>, name: string): seq<string> {
    if parts == [] then []
    else (if IsFieldNamed(parts[0], name) then [parts[0].content] else []) + FieldValues(parts[1..], name)
  }

  /** All files, or with a form name given, the files of that name. */
  function FileParts(parts: seq<Part>, name: Option<string>): seq<Part> {
    if parts == [] then []
    else
      (if IsFile(parts[0]) && (name.None? || name.value == parts[0].formName) then [parts[0]] else []) +
      FileParts(parts[1..], name)
  }

  function FormIdAt(ids: seq<string>, i: nat): string {
    if i < |ids| then ids[i] else ""
  }

  /** Uploading the files of a form from the i-th on. */
  function FormUploads(server: Server, channelId: string, ids: seq<string>, files: seq<Part>, i: nat,
                       r: Response, uploads: seq<Upload>): Outcome
    requires i <= |files|
    decreases |files| - i
  {
    if i == |files| then Finished(Ok(r), channelId, uploads)
    else
      var u := Upload(channelId, files[i], FormIdAt(ids, i));
      var stored := server.store(u);
      if stored.Err? then Finished(Err(UploadFailed(stored.error)), channelId, uploads + [u])
      else
        var r' := Response(r.fileInfos + [stored.value],
                           if u.clientId != "" then r.clientIds + [u.clientId] else r.clientIds);
        FormUploads(server, channelId, ids, files, i + 1, r', uploads + [u])
  }

  predicate FormReadable(m: Message) {
    m.readable && forall i :: 0 <= i < |m.parts| && m.parts[i].formName != "" ==> !m.parts[i].readFails
  }

  function Legacy(server: Server, channelId0: string, uploads: seq<Upload>, m: Message): Outcome {
    if !FormReadable(m) then Finished(Err(ReadRequest), channelId0, uploads)
    else
      var channelIds := FieldValues(m.parts, CHANNEL_ID);
      if channelIds == [] then Finished(Err(InvalidParam(CHANNEL_ID)), channelId0, uploads)
      else
        var channelId := channelIds[0];
        if |channelId| != 26 then Finished(Err(InvalidParam(CHANNEL_ID)), channelId, uploads)
        else if !server.mayUpload(channelId) then Finished(Err(NoPermission), channelId, uploads)
        else
          var ids, files := FieldValues(m.parts, CLIENT_IDS), FileParts(m.parts, Some(FILES));
          if ids != [] && |ids| != |files| then
            Finished(Err(IncorrectNumberOfClientIds(|ids|, |files|)), channelId, uploads)
          else FormUploads(server, channelId, ids, files, 0, Response([], []), uploads)
  }

  function MultipartFrom(server: Server, channelId: string, uploads: seq<Upload>, m: Message): Outcome {
    match Pass(server, Fresh(channelId, uploads), m, false)
    case Finished(r, c, u) => Finished(r, c, u)
    case NeedsRestart(c, u) => Pass(server, Fresh(c, u), m, true)
    case NeedsForm(c, u) => Legacy(server, c, u, m)
  }

  /** The whole request, for the channel id given in the URL or the empty one. */
  function Multipart(server: Server, channelId: string, m: Message): Outcome {
    MultipartFrom(server, channelId, [], m)
  }

  // ---------- restarting gives the same result as one streaming pass ----------

  /** The part that settles how a message without URL channel id is processed. */
  predicate Settles(p: Part) {
    IsFieldNamed(p, CHANNEL_ID) || IsFile(p)
  }

  predicate FileComesFirst(parts: seq<Part>) {
    parts != [] && (IsFile(parts[0]) || (!Settles(parts[0]) && FileComesFirst(parts[1..])))
  }

  /** Until the message is settled the channel id plays no part: the pre-scan, a streaming
      pass without a channel id and one with the channel id to come all do the same. */
  lemma {:induction false} PrescanAgrees(server: Server, s: Progress, m: Message)
    requires s.channelId == ""
    ensures var pre, stream := Pass(server, s, m, false), Pass(server, s, m, true);
            match pre
            case Finished(_, _, _) => stream == pre
            case NeedsRestart(c, u) => u == s.uploads && Pass(server, s.(channelId := c), m, true) == stream
            case NeedsForm(c, u) => c == "" && u == s.uploads && FileComesFirst(m.parts)
    decreases |m.parts|
  {
    if m.parts != [] {
      var p := m.parts[0];
      var step := PartStep(server, s, p, false);
      if step.Continue? {
        assert step == PartStep(server, s, p, true);
        PrescanAgrees(server, step.progress, Rest(m));
        forall c ensures PartStep(server, s.(channelId := c), p, true) ==
                         Continue(step.progress.(channelId := c))
        {
        }
      }
    }
  }

  /** A message that names its channel before its first file, or has an error first, gives
      the result of one streaming pass; one with a file first is read as a form instead. */
  lemma RestartEqualsStream(server: Server, m: Message)
    ensures Multipart(server, "", m) ==
            if Pass(server, Fresh("", []), m, false).NeedsForm? then Legacy(server, "", [], m)
            else Pass(server, Fresh("", []), m, true)
    ensures Pass(server, Fresh("", []), m, false).NeedsForm? ==> FileComesFirst(m.parts)
  {
    PrescanAgrees(server, Fresh("", []), m);
  }

  // ---------- each file at most once ----------

  /** The attempted uploads are the first files of the message, in order. */
  ghost predicate UploadsFirstFiles(uploads: seq<Upload>, files: seq<Part>) {
    |uploads| <= |files| && forall i :: 0 <= i < |uploads| ==> uploads[i].part == files[i]
  }

  function UploadsOf(o: Outcome): seq<Upload> {
    o.uploads
  }

  /** One more upload, and one more file or none. */
  lemma UploadStep(before: seq<Upload>, now: seq<Upload>, all: seq<Upload>, made: seq<Upload>, part: seq<Part>,
                   files: seq<Part>)
    requires now == before + made && now <= all && |made| == |part| <= 1
    requires made != [] ==> made[0].part == part[0]
    requires UploadsFirstFiles(all[|now|..], files)
    ensures UploadsFirstFiles(all[|before|..], part + files)
  {
    var later := all[|now|..];
    assert all[|before|..] == made + later;
    forall i | 0 <= i < |made + later| ensures (made + later)[i].part == (part + files)[i] {
      if i >= |made| {
        assert later[i - |made|].part == files[i - |made|];
      }
    }
  }

  function NextUploads(step: Step): seq<Upload> {
    if step.Continue? then step.progress.uploads else step.outcome.uploads
  }

  lemma StepUploads(server: Server, s: Progress, p: Part, asStream: bool)
    ensures var made := NextUploads(PartStep(server, s, p, asStream));
            s.uploads <= made && |made| <= |s.uploads| + (if IsFile(p) then 1 else 0) &&
            (|made| > |s.uploads| ==> made[|s.uploads|].part == p) &&
            (PartStep(server, s, p, asStream).Continue? && IsFile(p) ==> |made| == |s.uploads| + 1) &&
            !(PartStep(server, s, p, asStream).Stop? && Succeeds(PartStep(server, s, p, asStream).outcome))
  {
  }

  /** Every pass uploads the files it reaches, in order, and all of them when it succeeds. */
  lemma {:induction false} PassUploadsInOrder(server: Server, s: Progress, m: Message, asStream: bool)
    ensures s.uploads <= UploadsOf(Pass(server, s, m, asStream))
    ensures UploadsFirstFiles(UploadsOf(Pass(server, s, m, asStream))[|s.uploads|..], FileParts(m.parts, None))
    ensures Succeeds(Pass(server, s, m, asStream)) ==>
              |UploadsOf(Pass(server, s, m, asStream))| == |s.uploads| + |FileParts(m.parts, None)|
    decreases |m.parts|
  {
    if m.parts != [] {
      var p := m.parts[0];
      var step := PartStep(server, s, p, asStream);
      StepUploads(server, s, p, asStream);
      var next, part, files := NextUploads(step), if IsFile(p) then [p] else [], FileParts(m.parts[1..], None);
      var made := next[|s.uploads|..];
      assert next == s.uploads + made;
      assert FileParts(m.parts, None) == part + files;
      if step.Continue? {
        PassUploadsInOrder(server, step.progress, Rest(m), asStream);
        UploadStep(s.uploads, next, UploadsOf(Pass(server, step.progress, Rest(m), asStream)), made, part, files);
      }
    }
  }

  predicate Succeeds(o: Outcome) {
    o.Finished? && o.result.Ok?
  }

  lemma {:induction false} FormUploadsInOrder(server: Server, channelId: string, ids: seq<string>, files: seq<Part>,
                                              i: nat, r: Response, uploads: seq<Upload>)
    requires i <= |files|
    ensures uploads <= UploadsOf(FormUploads(server, channelId, ids, files, i, r, uploads))
    ensures UploadsFirstFiles(UploadsOf(FormUploads(server, channelId, ids, files, i, r, uploads))[|uploads|..],
                files[i..])
    decreases |files| - i
  {
    if i < |files| {
      var u := Upload(channelId, files[i], FormIdAt(ids, i));
      var stored := server.store(u);
      if stored.Ok? {
        var r' := Response(r.fileInfos + [stored.value],
                           if u.clientId != "" then r.clientIds + [u.clientId] else r.clientIds);
        FormUploadsInOrder(server, channelId, ids, files, i + 1, r', uploads + [u]);
        var all := UploadsOf(FormUploads(server, channelId, ids, files, i + 1, r', uploads + [u]));
        assert files[i..] == [files[i]] + files[i + 1..];
        UploadStep(uploads, uploads + [u], all, [u], [files[i]], files[i + 1..]);
      }
    }
  }

  function FormUpload(channelId: string, ids: seq<string>, files: seq<Part>, i: nat): Upload
    requires i < |files|
  {
    Upload(channelId, files[i], FormIdAt(ids, i))
  }

  /** The ids that are not empty. */
  function Given(ids: seq<string>): seq<string> {
    if ids == [] then [] else (if ids[0] != "" then [ids[0]] else []) + Given(ids[1..])
  }

  function IdsFrom(ids: seq<string>, i: nat): seq<string> {
    if i <= |ids| then ids[i..] else []
  }

  lemma GivenOneMore(sent: seq<string>, ids: seq<string>, i: nat)
    ensures sent + Given(IdsFrom(ids, i)) ==
            (if FormIdAt(ids, i) != "" then sent + [FormIdAt(ids, i)] else sent) + Given(IdsFrom(ids, i + 1))
  {
    if i < |ids| {
      assert IdsFrom(ids, i)[1..] == IdsFrom(ids, i + 1);
      var first := if ids[i] != "" then [ids[i]] else [];
      AppendAssociates(sent, first, Given(IdsFrom(ids, i + 1)));
      assert sent + [] == sent;
    }
  }

  /** The form pass from the i-th file on: what is uploaded with which id, and what is answered. */
  lemma {:induction false} FormUploadsOutcome(server: Server, channelId: string, ids: seq<string>, files: seq<Part>,
                                              i: nat, r: Response, uploads: seq<Upload>)
    requires i <= |files| && |uploads| == i == |r.fileInfos| && |ids| <= |files|
    ensures var o := FormUploads(server, channelId, ids, files, i, r, uploads);
            o.Finished? && o.channelId == channelId
            && (o.result.Ok? <==> forall j :: i <= j < |files| ==>
                                    server.store(FormUpload(channelId, ids, files, j)).Ok?)
            && (o.result.Ok? ==>
                  |o.uploads| == |files| == |o.result.value.fileInfos|
                  && o.result.value.clientIds == r.clientIds + Given(IdsFrom(ids, i))
                  && uploads <= o.uploads && r.fileInfos <= o.result.value.fileInfos
                  && forall j :: i <= j < |files| ==>
                       o.uploads[j] == FormUpload(channelId, ids, files, j)
                       && server.store(o.uploads[j]) == Ok(o.result.value.fileInfos[j]))
    decreases |files| - i
  {
    GivenOneMore(r.clientIds, ids, i);
    if i < |files| {
      var u := FormUpload(channelId, ids, files, i);
      var stored := server.store(u);
      if stored.Ok? {
        var r' := Response(r.fileInfos + [stored.value],
                           if u.clientId != "" then r.clientIds + [u.clientId] else r.clientIds);
        FormUploadsOutcome(server, channelId, ids, files, i + 1, r', uploads + [u]);
        var o := FormUploads(server, channelId, ids, files, i + 1, r', uploads + [u]);
        if o.result.Ok? {
          assert o.uploads[i] == (uploads + [u])[i] && o.result.value.fileInfos[i] == r'.fileInfos[i];
        }
      }
    } else {
      assert IdsFrom(ids, i) == [];
    }
  }

  /** All named parts can be read. */
  predicate NamedPartsRead(parts: seq<Part>) {
    forall p :: p in parts && p.formName != "" ==> !p.readFails
  }

  lemma ReadableIff(m: Message)
    ensures FormReadable(m) <==> m.readable && NamedPartsRead(m.parts)
  {
    if FormReadable(m) {
      forall p | p in m.parts && p.formName != "" ensures !p.readFails {
        var i :| 0 <= i < |m.parts| && m.parts[i] == p;
      }
    }
  }

  /** The form pass succeeds exactly for a readable form that names a permitted channel, with no
      ids or as many as files, when every upload works; the i-th file then gets the i-th id. */
  lemma FormOutcome(server: Server, m: Message)
    ensures var o, channels := Legacy(server, "", [], m), FieldValues(m.parts, CHANNEL_ID);
            var ids, files := FieldValues(m.parts, CLIENT_IDS), FileParts(m.parts, Some(FILES));
            o.Finished?
            && (o.result.Ok? <==>
                  m.readable && NamedPartsRead(m.parts)
                  && channels != [] && |channels[0]| == 26 && server.mayUpload(channels[0])
                  && (ids == [] || |ids| == |files|)
                  && forall j :: 0 <= j < |files| ==> server.store(FormUpload(channels[0], ids, files, j)).Ok?)
            && (o.result.Ok? ==>
                  |o.uploads| == |files| == |o.result.value.fileInfos| && o.result.value.clientIds == Given(ids)
                  && forall j :: 0 <= j < |files| ==>
                       o.uploads[j] == FormUpload(channels[0], ids, files, j)
                       && server.store(o.uploads[j]) == Ok(o.result.value.fileInfos[j]))
  {
    ReadableIff(m);
    var channels := FieldValues(m.parts, CHANNEL_ID);
    var ids, files := FieldValues(m.parts, CLIENT_IDS), FileParts(m.parts, Some(FILES));
    if channels != [] && |ids| <= |files| {
      FormUploadsOutcome(server, channels[0], ids, files, 0, Response([], []), []);
      assert IdsFrom(ids, 0) == ids;
    }
  }

  lemma FormUploadsFirstFiles(server: Server, m: Message)
    ensures UploadsFirstFiles(UploadsOf(Legacy(server, "", [], m)), FileParts(m.parts, Some(FILES)))
  {
    var channels, ids := FieldValues(m.parts, CHANNEL_ID), FieldValues(m.parts, CLIENT_IDS);
    var files := FileParts(m.parts, Some(FILES));
    if channels != [] {
      FormUploadsInOrder(server, channels[0], ids, files, 0, Response([], []), []);
      var form := UploadsOf(FormUploads(server, channels[0], ids, files, 0, Response([], []), []));
      assert form[0..] == form && files[0..] == files;
    }
  }

  /** Without a URL channel id no file part is uploaded twice, whatever the message is. */
  lemma NoFileUploadedTwice(server: Server, m: Message)
    ensures UploadsFirstFiles(UploadsOf(Multipart(server, "", m)), FileParts(m.parts, None)) ||
            UploadsFirstFiles(UploadsOf(Multipart(server, "", m)), FileParts(m.parts, Some(FILES)))
  {
    RestartEqualsStream(server, m);
    var start := Fresh("", []);
    if Pass(server, start, m, false).NeedsForm? {
      FormUploadsFirstFiles(server, m);
    } else {
      PassUploadsInOrder(server, start, m, true);
      var stream := UploadsOf(Pass(server, start, m, true));
      assert stream[0..] == stream;
    }
  }

  /** The files before the first channel_id part. */
  function FilesBeforeChannelId(parts: seq<Part>): seq<Part> {
    if parts == [] || IsFieldNamed(parts[0], CHANNEL_ID) then []
    else (if IsFile(parts[0]) then [parts[0]] else []) + FilesBeforeChannelId(parts[1..])
  }

  /** From a part on, with the ids and the number of files met before: there is a channel_id part, it is
      readable and repeats the channel, and nothing before it fails. Other fields are client ids, not the
      first of them after a file; each file may be uploaded, has an id if there are any, and is stored. */
  predicate ReachesChannelId(server: Server, channelId: string, parts: seq<Part>, ids: seq<string>, nFiles: nat) {
    parts != []
    && var p, rest := parts[0], parts[1..];
       if p.formName == "" then ReachesChannelId(server, channelId, rest, ids, nFiles)
       else if IsFieldNamed(p, CHANNEL_ID) then !p.readFails && Value(p) == channelId
       else if IsField(p) then
         !p.readFails && p.formName == CLIENT_IDS && (nFiles > 0 ==> ids != [])
         && ReachesChannelId(server, channelId, rest, ids + [Value(p)], nFiles)
       else
         |channelId| == 26 && server.mayUpload(channelId) && (ids != [] ==> nFiles < |ids|)
         && StoreFile(server, Upload(channelId, p, FormIdAt(ids, nFiles))).Ok?
         && ReachesChannelId(server, channelId, rest, ids, nFiles + 1)
  }

  /** Ids are expected unless a file came before any of them. */
  predicate ExpectsRightly(s: Progress) {
    s.channelId != "" && (s.expectClientIds <==> s.nFiles == 0 || s.clientIds != [])
  }

  /** What a step of the pre-scan leaves of the question. */
  predicate ReachesAfter(server: Server, channelId: string, rest: seq<Part>, step: Step) {
    if step.Stop? then step.outcome.NeedsRestart?
    else ReachesChannelId(server, channelId, rest, step.progress.clientIds, step.progress.nFiles)
  }

  lemma StepReaches(server: Server, s: Progress, parts: seq<Part>)
    requires ExpectsRightly(s) && parts != []
    ensures var step := PartStep(server, s, parts[0], false);
            && (step.Continue? ==> ExpectsRightly(step.progress) && step.progress.channelId == s.channelId)
            && (ReachesAfter(server, s.channelId, parts[1..], step)
                <==> ReachesChannelId(server, s.channelId, parts, s.clientIds, s.nFiles))
  {
  }

  /** The pre-scan starts over exactly if it reaches a channel_id part. */
  lemma {:induction false} PrescanRestartsIff(server: Server, s: Progress, m: Message)
    requires ExpectsRightly(s)
    ensures Pass(server, s, m, false).NeedsRestart? <==>
              ReachesChannelId(server, s.channelId, m.parts, s.clientIds, s.nFiles)
    decreases |m.parts|
  {
    if m.parts != [] {
      StepReaches(server, s, m.parts);
      var step := PartStep(server, s, m.parts[0], false);
      if step.Continue? {
        PrescanRestartsIff(server, step.progress, Rest(m));
      }
    }
  }

  /** With a URL channel id, the pre-scan does what a stream does until the first channel_id
      part, so what it uploads before it restarts is what the restarted pass uploads first. */
  lemma {:induction false} PrescanIsStreamPrefix(server: Server, s: Progress, m: Message)
    requires s.channelId != ""
    ensures !Pass(server, s, m, false).NeedsForm?
    ensures Pass(server, s, m, false).Finished? ==> Pass(server, s, m, false) == Pass(server, s, m, true)
    ensures Pass(server, s, m, false).NeedsRestart? ==>
              Pass(server, s, m, false).channelId == s.channelId &&
              s.uploads <= Pass(server, s, m, false).uploads <= UploadsOf(Pass(server, s, m, true)) &&
              |Pass(server, s, m, false).uploads| == |s.uploads| + |FilesBeforeChannelId(m.parts)|
    decreases |m.parts|
  {
    if m.parts != [] {
      var p := m.parts[0];
      var step := PartStep(server, s, p, false);
      if step.Continue? {
        assert step == PartStep(server, s, p, true);
        PrescanIsStreamPrefix(server, step.progress, Rest(m));
      } else if step.outcome.NeedsRestart? {
        PassUploadsInOrder(server, s, m, true);
      }
    }
  }

  /** The uploads of a pass do not depend on what earlier passes uploaded. */
  lemma {:induction false} EarlierUploadsStay(server: Server, s: Progress, earlier: seq<Upload>, m: Message,
                                              asStream: bool)
    ensures UploadsOf(Pass(server, s.(uploads := earlier + s.uploads), m, asStream)) ==
            earlier + UploadsOf(Pass(server, s, m, asStream))
    decreases |m.parts|
  {
    if m.parts != [] {
      var s2 := s.(uploads := earlier + s.uploads);
      var step, step2 := PartStep(server, s, m.parts[0], asStream), PartStep(server, s2, m.parts[0], asStream);
      assert forall u: Upload :: (earlier + s.uploads) + [u] == earlier + (s.uploads + [u]);
      if step.Continue? {
        assert step2 == Continue(step.progress.(uploads := earlier + step.progress.uploads));
        EarlierUploadsStay(server, step.progress, earlier, Rest(m), asStream);
      }
    }
  }

  /** With a URL channel id a request uploads files twice exactly when the parts reach a channel_id
      part behind a file: the files before that part are then uploaded again, and first. */
  lemma UrlChannelReplays(server: Server, channelId: string, m: Message)
    requires channelId != ""
    ensures var all := UploadsOf(Multipart(server, channelId, m));
            var stream := UploadsOf(Pass(server, Fresh(channelId, []), m, true));
            UploadsFirstFiles(stream, FileParts(m.parts, None))
            && if ReachesChannelId(server, channelId, m.parts, [], 0) then
                 |FilesBeforeChannelId(m.parts)| <= |stream|
                 && all == stream[..|FilesBeforeChannelId(m.parts)|] + stream
               else all == stream
  {
    var start := Fresh(channelId, []);
    PrescanIsStreamPrefix(server, start, m);
    PrescanRestartsIff(server, start, m);
    var pre := Pass(server, start, m, false);
    PassUploadsInOrder(server, start, m, true);
    var stream := UploadsOf(Pass(server, start, m, true));
    assert stream[0..] == stream;
    if pre.NeedsRestart? {
      EarlierUploadsStay(server, start, pre.uploads, m, true);
      assert start.(uploads := pre.uploads + []) == Fresh(channelId, pre.uploads) by {
        assert pre.uploads + [] == pre.uploads;
      }
    }
  }

  /** One file before the channel_id part, all working: it is uploaded twice. */
  lemma ReplayedUpload(channelId: string)
    requires |channelId| == 26
    ensures var server := Server((c: string) => true, (u: Upload) => Ok("info"));
            var file := Part("files", "a.txt", "content", false);
            var upload := Upload(channelId, file, "");
            UploadsOf(Multipart(server, channelId, Message([file, Part("channel_id", "", channelId, false)], true)))
                == [upload, upload]
  {
    var server := Server((c: string) => true, (u: Upload) => Ok("info"));
    var file := Part("files", "a.txt", "content", false);
    var channel := Part(CHANNEL_ID, "", channelId, false);
    var upload := Upload(channelId, file, "");
    var m := Message([file, channel], true);
    UrlChannelReplays(server, channelId, m);
    assert m.parts[1..] == [channel] && [channel][1..] == [];
    assert FilesBeforeChannelId([channel]) == [] && FilesBeforeChannelId(m.parts) == [file];
    var start := Fresh(channelId, []);
    var s1 := PartStep(server, start, file, true).progress;
    assert s1.uploads == [upload];
    assert PartStep(server, s1, channel, true) == Continue(s1);
    assert Rest(Rest(m)).parts == [];
    assert Pass(server, start, m, true) == Pass(server, s1, Rest(m), true) == Pass(server, s1, Rest(Rest(m)), true)
           == Finish(s1);
    assert ReachesChannelId(server, channelId, [channel], [], 1);
  }

  // ---------- every upload is permitted ----------

  /** An upload into this channel, which has an id of full length and takes the user's files. */
  predicate Permitted(server: Server, u: Upload, channelId: string) {
    u.channelId == channelId && |channelId| == 26 && server.mayUpload(channelId)
  }

  ghost predicate AllPermitted(server: Server, uploads: seq<Upload>, channelId: string) {
    forall i :: 0 <= i < |uploads| ==> Permitted(server, uploads[i], channelId)
  }

  /** The message names the channel in one of its parts. */
  predicate NamesChannel(parts: seq<Part>, channelId: string) {
    exists i :: 0 <= i < |parts| && IsFieldNamed(parts[i], CHANNEL_ID) && Value(parts[i]) == channelId
  }

  function ChannelAfter(step: Step): string {
    if step.Continue? then step.progress.channelId else step.outcome.channelId
  }

  /** The channel is the one known before the step, or the one that the part names. */
  ghost predicate StepIsPermitted(server: Server, s: Progress, p: Part, step: Step) {
    && s.uploads <= NextUploads(step)
    && AllPermitted(server, NextUploads(step)[|s.uploads|..], ChannelAfter(step))
    && (ChannelAfter(step) == s.channelId
        || (s.channelId == "" && IsFieldNamed(p, CHANNEL_ID) && Value(p) == ChannelAfter(step)))
    && (NextUploads(step) != s.uploads ==> s.channelId != "")
  }

  lemma FieldPermitted(server: Server, s: Progress, p: Part, asStream: bool)
    requires p.formName != "" && p.fileName == ""
    ensures StepIsPermitted(server, s, p, FieldStep(s, p, asStream))
  {
  }

  lemma FilePermitted(server: Server, s: Progress, p: Part, asStream: bool)
    ensures StepIsPermitted(server, s, p, FileStep(server, s, p, asStream))
  {
    var step := FileStep(server, s, p, asStream);
    if NextUploads(step) != s.uploads {
      assert |NextUploads(step)| == |s.uploads| + 1;
    }
  }

  lemma StepPermitted(server: Server, s: Progress, p: Part, asStream: bool)
    ensures StepIsPermitted(server, s, p, PartStep(server, s, p, asStream))
  {
    if p.formName != "" {
      if p.fileName == "" {
        FieldPermitted(server, s, p, asStream);
      } else {
        FilePermitted(server, s, p, asStream);
      }
    }
  }

  lemma PermittedTogether(server: Server, a: seq<Upload>, b: seq<Upload>, c: seq<Upload>, channelId: string)
    requires a <= b <= c
    requires AllPermitted(server, b[|a|..], channelId) && AllPermitted(server, c[|b|..], channelId)
    ensures AllPermitted(server, c[|a|..], channelId)
  {
    var made, later := b[|a|..], c[|b|..];
    assert c[|a|..] == made + later;
  }

  /** Every upload a pass makes, however it ends, is into the one channel it ends with, and permitted. */
  lemma {:induction false} PassPermitted(server: Server, s: Progress, m: Message, asStream: bool)
    ensures var o := Pass(server, s, m, asStream);
            && s.uploads <= o.uploads
            && AllPermitted(server, o.uploads[|s.uploads|..], o.channelId)
            && (o.channelId == s.channelId || (s.channelId == "" && NamesChannel(m.parts, o.channelId)))
    decreases |m.parts|
  {
    if m.parts != [] {
      var step, o := PartStep(server, s, m.parts[0], asStream), Pass(server, s, m, asStream);
      StepPermitted(server, s, m.parts[0], asStream);
      NamedLater(m.parts, o.channelId);
      if step.Continue? {
        var next := step.progress;
        PassPermitted(server, next, Rest(m), asStream);
        if next.uploads == s.uploads {
          assert next.uploads[|s.uploads|..] == [];
        }
        PermittedTogether(server, s.uploads, next.uploads, o.uploads, o.channelId);
      }
    }
  }

  lemma NamedLater(parts: seq<Part>, channelId: string)
    requires parts != []
    ensures NamesChannel(parts[1..], channelId) ==> NamesChannel(parts, channelId)
    ensures IsFieldNamed(parts[0], CHANNEL_ID) && Value(parts[0]) == channelId ==> NamesChannel(parts, channelId)
  {
    if NamesChannel(parts[1..], channelId) {
      var i :| 0 <= i < |parts[1..]| && IsFieldNamed(parts[1..][i], CHANNEL_ID) && Value(parts[1..][i]) == channelId;
      assert parts[i + 1] == parts[1..][i];
    }
  }

  lemma {:induction false} FormUploadsPermitted(server: Server, channelId: string, ids: seq<string>, files: seq<Part>,
                                                i: nat, r: Response, uploads: seq<Upload>)
    requires i <= |files| && |channelId| == 26 && server.mayUpload(channelId)
    ensures var o := FormUploads(server, channelId, ids, files, i, r, uploads);
            && uploads <= o.uploads && o.channelId == channelId
            && AllPermitted(server, o.uploads[|uploads|..], channelId)
    decreases |files| - i
  {
    if i < |files| {
      var u := Upload(channelId, files[i], FormIdAt(ids, i));
      var stored := server.store(u);
      if stored.Ok? {
        var r' := Response(r.fileInfos + [stored.value],
                           if u.clientId != "" then r.clientIds + [u.clientId] else r.clientIds);
        var o := FormUploads(server, channelId, ids, files, i + 1, r', uploads + [u]);
        FormUploadsPermitted(server, channelId, ids, files, i + 1, r', uploads + [u]);
        assert o.uploads[|uploads|..] == [u] + o.uploads[|uploads + [u]|..];
      }
    }
  }

  lemma {:induction false} ValuesAreNamed(parts: seq<Part>, i: nat)
    requires i < |FieldValues(parts, CHANNEL_ID)| && |FieldValues(parts, CHANNEL_ID)[i]| <= MAX_FORM_VALUE
    ensures NamesChannel(parts, FieldValues(parts, CHANNEL_ID)[i])
  {
    var values, rest := FieldValues(parts, CHANNEL_ID), FieldValues(parts[1..], CHANNEL_ID);
    if IsFieldNamed(parts[0], CHANNEL_ID) {
      assert values == [parts[0].content] + rest;
      if i > 0 {
        ValuesAreNamed(parts[1..], i - 1);
      }
    } else {
      assert values == rest;
      ValuesAreNamed(parts[1..], i);
    }
    NamedLater(parts, values[i]);
  }

  /** And so every upload of the form pass: into the channel named by the first channel_id part. */
  lemma FormPermitted(server: Server, channelId: string, uploads: seq<Upload>, m: Message)
    ensures var o := Legacy(server, channelId, uploads, m);
            && uploads <= o.uploads
            && AllPermitted(server, o.uploads[|uploads|..], o.channelId)
            && (o.uploads != uploads ==> NamesChannel(m.parts, o.channelId))
            && (o.channelId == channelId ||
                (FieldValues(m.parts, CHANNEL_ID) != [] && o.channelId == FieldValues(m.parts, CHANNEL_ID)[0]))
  {
    var channels := FieldValues(m.parts, CHANNEL_ID);
    if FormReadable(m) && channels != [] && |channels[0]| == 26 && server.mayUpload(channels[0]) {
      var ids, files := FieldValues(m.parts, CLIENT_IDS), FileParts(m.parts, Some(FILES));
      FormUploadsPermitted(server, channels[0], ids, files, 0, Response([], []), uploads);
      ValuesAreNamed(m.parts, 0);
    }
  }

  /** Whatever the request and however it ends: every upload is permitted, and all are into one channel, that of the
      URL, or without one a channel that the message names. */
  lemma RequestPermitted(server: Server, channelId: string, m: Message)
    ensures var o := Multipart(server, channelId, m);
            && AllPermitted(server, o.uploads, o.channelId)
            && (o.uploads != [] ==> if channelId != "" then o.channelId == channelId
                                    else NamesChannel(m.parts, o.channelId))
  {
    var start, all := Fresh(channelId, []), Multipart(server, channelId, m);
    var pre := Pass(server, start, m, false);
    PassPermitted(server, start, m, false);
    assert pre.uploads[0..] == pre.uploads;
    if pre.NeedsRestart? {
      PassPermitted(server, Fresh(pre.channelId, pre.uploads), m, true);
      assert all.uploads == pre.uploads + all.uploads[|pre.uploads|..];
    } else if pre.NeedsForm? {
      FormOnlyAtStart(server, start, m);
      FormPermitted(server, pre.channelId, pre.uploads, m);
      assert all.uploads[0..] == all.uploads;
    }
    assert pre.uploads != [] ==> Permitted(server, pre.uploads[0], pre.channelId);
    assert all.uploads != [] && AllPermitted(server, all.uploads, all.channelId) ==>
        Permitted(server, all.uploads[0], all.channelId);
  }

  lemma {:induction false} FormOnlyAtStart(server: Server, s: Progress, m: Message)
    requires Pass(server, s, m, false).NeedsForm?
    ensures s.channelId == "" && Pass(server, s, m, false).channelId == ""
    ensures Pass(server, s, m, false).uploads == s.uploads
    decreases |m.parts|
  {
    var step := PartStep(server, s, m.parts[0], false);
    if step.Continue? {
      FormOnlyAtStart(server, step.progress, Rest(m));
    }
  }

  // ---------- pairing client ids with files ----------

  /** Nothing but the pairing of ids can fail: fields are known and readable, the channel is
      given once, before the first file, and every upload is permitted and works. */
  ghost predicate OtherwiseFine(server: Server, channelId: string, parts: seq<Part>)
    decreases |parts|
  {
    parts == [] ||
    (var p := parts[0];
     if p.formName == "" then OtherwiseFine(server, channelId, parts[1..])
     else if IsFile(p) then
       |channelId| == 26 && server.mayUpload(channelId) &&
       !p.readFails && (forall id :: server.store(Upload(channelId, p, id)).Ok?) &&
       OtherwiseFine(server, channelId, parts[1..])
     else if p.formName == CHANNEL_ID then
       !p.readFails && (channelId == "" || Value(p) == channelId) && OtherwiseFine(server, Value(p), parts[1..])
     else !p.readFails && p.formName == CLIENT_IDS && OtherwiseFine(server, channelId, parts[1..]))
  }

  function ClientIds(parts: seq<Part>): seq<string> {
    if parts == [] then []
    else (if IsFieldNamed(parts[0], CLIENT_IDS) then [Value(parts[0])] else []) + ClientIds(parts[1..])
  }

  /** For each file the number of client ids that came before it, counting from seen. */
  function IdsBefore(parts: seq<Part>, seen: nat): seq<nat> {
    if parts == [] then []
    else if IsFile(parts[0]) then [seen] + IdsBefore(parts[1..], seen)
    else IdsBefore(parts[1..], if IsFieldNamed(parts[0], CLIENT_IDS) then seen + 1 else seen)
  }

  /** Each file is preceded by more ids than files, counting from the given numbers. */
  predicate EnoughIds(before: seq<nat>, nFiles: nat) {
    forall i :: 0 <= i < |before| ==> before[i] > nFiles + i
  }

  /** There are no ids at all, or as many as files and each file comes after its own id. */
  predicate WellPaired(parts: seq<Part>) {
    ClientIds(parts) == [] ||
    (|ClientIds(parts)| == |FileParts(parts, None)| && EnoughIds(IdsBefore(parts, 0), 0))
  }

  /** When the rest of the message completes a pass that has come this far. */
  predicate Completes(s: Progress, parts: seq<Part>) {
    if !s.expectClientIds then ClientIds(parts) == []
    else
      (s.nFiles == 0 && s.clientIds == [] && ClientIds(parts) == []) ||
      (|s.clientIds| + |ClientIds(parts)| == s.nFiles + |FileParts(parts, None)| &&
       EnoughIds(IdsBefore(parts, |s.clientIds|), s.nFiles))
  }

  predicate Started(s: Progress) {
    s.nFiles > 0 && s.expectClientIds ==> s.clientIds != []
  }

  /** Whether a step decided rightly: a failure only when the message cannot complete the pass. */
  ghost predicate CompletesAfter(server: Server, s: Progress, parts: seq<Part>, step: Step)
    requires parts != []
  {
    match step
    case Stop(outcome) => outcome.Finished? && outcome.result.Err? && !Completes(s, parts)
    case Continue(next) => Started(next) && OtherwiseFine(server, next.channelId, parts[1..]) &&
                           (Completes(next, parts[1..]) <==> Completes(s, parts))
  }

  lemma CompletesStep(server: Server, s: Progress, parts: seq<Part>)
    requires parts != [] && Started(s) && OtherwiseFine(server, s.channelId, parts)
    ensures CompletesAfter(server, s, parts, PartStep(server, s, parts[0], true))
  {
    if IsFile(parts[0]) {
      FileCompletes(server, s, parts);
    } else {
      FieldCompletes(server, s, parts);
    }
  }

  lemma FieldCompletes(server: Server, s: Progress, parts: seq<Part>)
    requires parts != [] && !IsFile(parts[0]) && Started(s) && OtherwiseFine(server, s.channelId, parts)
    ensures CompletesAfter(server, s, parts, PartStep(server, s, parts[0], true))
  {
    var p, rest := parts[0], parts[1..];
    assert FileParts(parts, None) == FileParts(rest, None);
    if IsFieldNamed(p, CLIENT_IDS) {
      assert ClientIds(parts) == [Value(p)] + ClientIds(rest);
      assert IdsBefore(parts, |s.clientIds|) == IdsBefore(rest, |s.clientIds| + 1);
    } else {
      assert ClientIds(parts) == ClientIds(rest);
      assert IdsBefore(parts, |s.clientIds|) == IdsBefore(rest, |s.clientIds|);
    }
  }

  lemma FileCompletes(server: Server, s: Progress, parts: seq<Part>)
    requires parts != [] && IsFile(parts[0]) && Started(s) && OtherwiseFine(server, s.channelId, parts)
    ensures CompletesAfter(server, s, parts, PartStep(server, s, parts[0], true))
  {
    var rest, seen := parts[1..], |s.clientIds|;
    assert IdsBefore(parts, seen) == [seen] + IdsBefore(rest, seen);
    assert IdsBefore(parts, seen)[0] == seen;
    assert EnoughIds(IdsBefore(parts, seen), s.nFiles) <==>
             seen > s.nFiles && EnoughIds(IdsBefore(rest, seen), s.nFiles + 1) by {
      var before, later := IdsBefore(parts, seen), IdsBefore(rest, seen);
      assert forall i :: 0 <= i < |later| ==> before[i + 1] == later[i];
      assert forall i :: 0 < i < |before| ==> before[i] == later[i - 1];
    }
    var clientId := if ExpectsIds(s) && s.nFiles < seen then s.clientIds[s.nFiles] else "";
    assert StoreFile(server, Upload(s.channelId, parts[0], clientId)).Ok?;
  }

  lemma {:induction false} PassSucceedsIff(server: Server, s: Progress, m: Message)
    requires Started(s) && OtherwiseFine(server, s.channelId, m.parts) && m.readable
    ensures Pass(server, s, m, true).Finished?
    ensures Pass(server, s, m, true).result.Ok? <==> Completes(s, m.parts)
    decreases |m.parts|
  {
    if m.parts != [] {
      CompletesStep(server, s, m.parts);
      var step := PartStep(server, s, m.parts[0], true);
      if step.Continue? {
        PassSucceedsIff(server, step.progress, Rest(m));
      }
    }
  }

  /** Barring other errors, a streaming pass succeeds exactly when the message is well paired. */
  lemma StreamSucceedsIffWellPaired(server: Server, channelId: string, m: Message)
    requires m.readable && OtherwiseFine(server, channelId, m.parts)
    ensures Pass(server, Fresh(channelId, []), m, true).Finished?
    ensures Pass(server, Fresh(channelId, []), m, true).result.Ok? <==> WellPaired(m.parts)
  {
    PassSucceedsIff(server, Fresh(channelId, []), m);
  }

  /** The i-th upload carries the i-th id received, if ids are expected, and its info is the
      i-th of the response. */
  ghost predicate Paired(server: Server, s: Progress) {
    && s.nFiles == |s.uploads| == |s.fileInfos|
    && (forall i :: 0 <= i < s.nFiles ==> StoreFile(server, s.uploads[i]) == Ok(s.fileInfos[i]))
    && (if s.expectClientIds then
          s.nFiles <= |s.clientIds| && s.sentIds == s.clientIds[..s.nFiles] &&
          forall i :: 0 <= i < s.nFiles ==> s.uploads[i].clientId == s.clientIds[i]
        else
          s.clientIds == [] && s.sentIds == [] && forall i :: 0 <= i < s.nFiles ==> s.uploads[i].clientId == "")
  }

  lemma FieldKeepsPairing(server: Server, s: Progress, p: Part)
    requires Paired(server, s) && !IsFile(p) && PartStep(server, s, p, true).Continue?
    ensures Paired(server, PartStep(server, s, p, true).progress)
    ensures PartStep(server, s, p, true).progress.clientIds == s.clientIds + ClientIds([p])
  {
    FirstIds(p);
    if IsFieldNamed(p, CLIENT_IDS) {
      assert s.expectClientIds ==> (s.clientIds + [Value(p)])[..s.nFiles] == s.clientIds[..s.nFiles];
    } else {
      assert s.clientIds + [] == s.clientIds;
    }
  }

  lemma FileKeepsPairing(server: Server, s: Progress, p: Part)
    requires Paired(server, s) && IsFile(p) && PartStep(server, s, p, true).Continue?
    ensures Paired(server, PartStep(server, s, p, true).progress)
    ensures PartStep(server, s, p, true).progress.clientIds == s.clientIds + ClientIds([p])
  {
    FirstIds(p);
    assert s.clientIds + [] == s.clientIds;
    if ExpectsIds(s) {
      assert s.clientIds[..s.nFiles + 1] == s.clientIds[..s.nFiles] + [s.clientIds[s.nFiles]];
    }
  }

  lemma StepKeepsPairing(server: Server, s: Progress, p: Part)
    requires Paired(server, s) && PartStep(server, s, p, true).Continue?
    ensures Paired(server, PartStep(server, s, p, true).progress)
    ensures PartStep(server, s, p, true).progress.clientIds == s.clientIds + ClientIds([p])
  {
    if IsFile(p) {
      FileKeepsPairing(server, s, p);
    } else {
      FieldKeepsPairing(server, s, p);
    }
  }

  /** A response lists the infos of the stored files and these ids, one per file if any. */
  ghost predicate RespondsWith(server: Server, o: Outcome, ids: seq<string>) {
    && Succeeds(o) && o.result.value.clientIds == ids && |o.uploads| == |o.result.value.fileInfos|
    && (forall i :: 0 <= i < |o.uploads| ==>
          !o.uploads[i].part.readFails && server.store(o.uploads[i]) == Ok(o.result.value.fileInfos[i]) &&
          o.uploads[i].clientId == FormIdAt(ids, i))
  }

  lemma FinishPairs(server: Server, s: Progress)
    requires Paired(server, s) && Succeeds(Finish(s))
    ensures RespondsWith(server, Finish(s), s.clientIds)
  {
    assert s.expectClientIds ==> s.clientIds[..s.nFiles] == s.clientIds;
  }

  lemma IdsOfFirst(before: seq<string>, parts: seq<Part>)
    requires parts != []
    ensures (before + ClientIds([parts[0]])) + ClientIds(parts[1..]) == before + ClientIds(parts)
  {
    var first, later := ClientIds([parts[0]]), ClientIds(parts[1..]);
    FirstIds(parts[0]);
    assert ClientIds(parts) == first + later;
    AppendAssociates(before, first, later);
  }

  lemma FirstIds(p: Part)
    ensures ClientIds([p]) == if IsFieldNamed(p, CLIENT_IDS) then [Value(p)] else []
  {
    assert [p][1..] == [];
  }

  lemma {:induction false} PassPairs(server: Server, s: Progress, m: Message)
    requires Paired(server, s) && Succeeds(Pass(server, s, m, true))
    ensures RespondsWith(server, Pass(server, s, m, true), s.clientIds + ClientIds(m.parts))
    decreases |m.parts|
  {
    if m.parts == [] {
      assert s.clientIds + [] == s.clientIds;
      FinishPairs(server, s);
    } else {
      StepKeepsPairing(server, s, m.parts[0]);
      PassPairs(server, PartStep(server, s, m.parts[0], true).progress, Rest(m));
      IdsOfFirst(s.clientIds, m.parts);
    }
  }

  /** On success the i-th file of the message was uploaded with the i-th client id, or with
      none when there are no ids; the response lists infos and ids in this order. */
  lemma StreamPairsInOrder(server: Server, channelId: string, m: Message)
    requires Succeeds(Pass(server, Fresh(channelId, []), m, true))
    ensures var o, ids, files := Pass(server, Fresh(channelId, []), m, true), ClientIds(m.parts),
            FileParts(m.parts, None);
            |o.uploads| == |files| == |o.result.value.fileInfos| && o.result.value.clientIds == ids &&
            forall i :: 0 <= i < |files| ==>
              o.uploads[i].part == files[i] && o.uploads[i].clientId == FormIdAt(ids, i) &&
              !files[i].readFails && server.store(o.uploads[i]) == Ok(o.result.value.fileInfos[i])
  {
    var start := Fresh(channelId, []);
    PassUploadsInOrder(server, start, m, true);
    PassPairs(server, start, m);
    var all := UploadsOf(Pass(server, start, m, true));
    assert all[0..] == all;
    assert [] + ClientIds(m.parts) == ClientIds(m.parts);
  }

  lemma {:induction false} FineMeansChannelFirst(server: Server, parts: seq<Part>)
    requires OtherwiseFine(server, "", parts)
    ensures !FileComesFirst(parts)
  {
    if parts != [] && !Settles(parts[0]) {
      FineMeansChannelFirst(server, parts[1..]);
    }
  }

  /** The whole request, restart included: barring other errors it succeeds exactly when the
      message is well paired, and then every file was stored once, with its own id. */
  lemma RequestSucceedsIffWellPaired(server: Server, m: Message)
    requires m.readable && OtherwiseFine(server, "", m.parts)
    ensures Multipart(server, "", m).Finished?
    ensures Multipart(server, "", m).result.Ok? <==> WellPaired(m.parts)
    ensures WellPaired(m.parts) ==>
              RespondsWith(server, Multipart(server, "", m), ClientIds(m.parts)) &&
              |UploadsOf(Multipart(server, "", m))| == |FileParts(m.parts, None)| &&
              UploadsFirstFiles(UploadsOf(Multipart(server, "", m)), FileParts(m.parts, None))
  {
    FineMeansChannelFirst(server, m.parts);
    RestartEqualsStream(server, m);
    StreamSucceedsIffWellPaired(server, "", m);
    if WellPaired(m.parts) {
      StreamPairsInOrder(server, "", m);
    }
  }

  // ---------- what the errors say ----------

  /** An upload that was attempted last, and why it failed. */
  predicate LastUploadFailed(server: Server, uploads: seq<Upload>, reason: string) {
    uploads != [] && var u := uploads[|uploads| - 1];
    if u.part.readFails then reason == "read" else server.store(u) == Err(reason)
  }

  /** What is true of a request when a pass that has come this far ends with an error. */
  ghost predicate Justified(server: Server, s: Progress, m: Message, e: Error, channelId: string,
                            uploads: seq<Upload>)
  {
    match e
    case ReadRequest => !m.readable
    case ReadFormValue(name) => exists p :: p in m.parts && IsFieldNamed(p, name) && p.readFails
    case MultipleChannelIds =>
      channelId != "" && exists p :: p in m.parts && IsFieldNamed(p, "channel_id") && Value(p) != channelId
    case InvalidParam(name) =>
      if name == "channel_id" then |channelId| != 26 && exists p :: p in m.parts && IsFile(p)
      else if name == "client_ids" then
        s.nFiles + |FileParts(m.parts, None)| > 0 && |s.clientIds| + |ClientIds(m.parts)| > 0
      else exists p :: p in m.parts && IsFieldNamed(p, name)
    case NoPermission =>
      |channelId| == 26 && !server.mayUpload(channelId) && exists p :: p in m.parts && IsFile(p)
    case UploadFailed(reason) => |uploads| > |s.uploads| && LastUploadFailed(server, uploads, reason)
    case IncorrectNumberOfClientIds(ids, files) =>
      && ids == |s.clientIds| + |ClientIds(m.parts)| && files == s.nFiles + |FileParts(m.parts, None)|
      && ids != files && m.readable
  }

  /** Ids are given up only at the first file, and only where none came before. */
  predicate GaveUpRightly(s: Progress) {
    (s.expectClientIds || s.nFiles > 0) && Started(s)
  }

  lemma FieldJustified(server: Server, s: Progress, m: Message, asStream: bool)
    requires m.parts != [] && IsField(m.parts[0]) && GaveUpRightly(s)
    requires FieldStep(s, m.parts[0], asStream).Stop? && FieldStep(s, m.parts[0], asStream).outcome.Finished?
    ensures var o := FieldStep(s, m.parts[0], asStream).outcome;
            o.result.Err? && Justified(server, s, m, o.result.error, o.channelId, o.uploads)
  {
    assert m.parts[0] in m.parts && CHANNEL_ID == "channel_id" && CLIENT_IDS == "client_ids";
    assert CHANNEL_ID[1] != CLIENT_IDS[1];
    FirstIdsOf(m.parts);
  }

  lemma FileJustified(server: Server, s: Progress, m: Message, asStream: bool)
    requires m.parts != [] && IsFile(m.parts[0]) && GaveUpRightly(s)
    requires FileStep(server, s, m.parts[0], asStream).Stop?
             && FileStep(server, s, m.parts[0], asStream).outcome.Finished?
    ensures var o := FileStep(server, s, m.parts[0], asStream).outcome;
            o.result.Err? && Justified(server, s, m, o.result.error, o.channelId, o.uploads)
  {
    assert m.parts[0] in m.parts && CHANNEL_ID == "channel_id" && CLIENT_IDS == "client_ids";
    assert CHANNEL_ID[1] != CLIENT_IDS[1];
    FirstIdsOf(m.parts);
  }

  lemma FirstIdsOf(parts: seq<Part>)
    requires parts != []
    ensures |ClientIds(parts)| == (if IsFieldNamed(parts[0], CLIENT_IDS) then 1 else 0) + |ClientIds(parts[1..])|
    ensures |FileParts(parts, None)| == (if IsFile(parts[0]) then 1 else 0) + |FileParts(parts[1..], None)|
  {
  }

  lemma JustifiedLater(server: Server, s: Progress, m: Message, asStream: bool, e: Error, channelId: string,
                       uploads: seq<Upload>)
    requires m.parts != [] && PartStep(server, s, m.parts[0], asStream).Continue?
    requires Justified(server, PartStep(server, s, m.parts[0], asStream).progress, Rest(m), e, channelId, uploads)
    ensures Justified(server, s, m, e, channelId, uploads)
  {
    var next := PartStep(server, s, m.parts[0], asStream).progress;
    FirstIdsOf(m.parts);
    assert |next.uploads| >= |s.uploads|;
    assert forall p :: p in m.parts[1..] ==> p in m.parts;
    assert |next.clientIds| == |s.clientIds| + if IsFieldNamed(m.parts[0], CLIENT_IDS) then 1 else 0;
    assert next.nFiles == s.nFiles + if IsFile(m.parts[0]) then 1 else 0;
  }

  /** Whatever error a pass ends with, in either mode, what the error says is so. */
  lemma {:induction false} PassJustified(server: Server, s: Progress, m: Message, asStream: bool)
    requires GaveUpRightly(s)
    ensures var o := Pass(server, s, m, asStream);
            o.Finished? && o.result.Err? ==> Justified(server, s, m, o.result.error, o.channelId, o.uploads)
    decreases |m.parts|
  {
    if m.parts != [] {
      var p, o := m.parts[0], Pass(server, s, m, asStream);
      var step := PartStep(server, s, p, asStream);
      if step.Continue? {
        PassJustified(server, step.progress, Rest(m), asStream);
        if o.Finished? && o.result.Err? {
          JustifiedLater(server, s, m, asStream, o.result.error, o.channelId, o.uploads);
        }
      } else if o.Finished? && IsField(p) {
        FieldJustified(server, s, m, asStream);
      } else if o.Finished? {
        FileJustified(server, s, m, asStream);
      }
    }
  }

  predicate JustifiedInForm(server: Server, m: Message, e: Error, before: seq<Upload>, uploads: seq<Upload>) {
    var channels, ids := FieldValues(m.parts, "channel_id"), FieldValues(m.parts, "client_ids");
    match e
    case ReadRequest => !m.readable || !NamedPartsRead(m.parts)
    case InvalidParam(name) => name == "channel_id" && (channels == [] || |channels[0]| != 26)
    case NoPermission => channels != [] && |channels[0]| == 26 && !server.mayUpload(channels[0])
    case IncorrectNumberOfClientIds(i, f) => i == |ids| > 0 && f == |FileParts(m.parts, Some("files"))| && i != f
    case UploadFailed(reason) => |uploads| > |before| && server.store(uploads[|uploads| - 1]) == Err(reason)
    case _ => false
  }

  /** And the errors of the form pass: an unreadable form, a first channel_id that is missing or no id, one the user may
      not upload to, ids that are not as many as files, or an upload that failed. */
  lemma FormJustified(server: Server, channelId: string, uploads: seq<Upload>, m: Message)
    ensures var o := Legacy(server, channelId, uploads, m);
            o.Finished? && (o.result.Err? ==> JustifiedInForm(server, m, o.result.error, uploads, o.uploads))
  {
    var channels, ids := FieldValues(m.parts, CHANNEL_ID), FieldValues(m.parts, CLIENT_IDS);
    ReadableIff(m);
    if channels != [] {
      FormUploadsJustified(server, channels[0], ids, FileParts(m.parts, Some(FILES)), 0, Response([], []), uploads);
    }
  }

  lemma {:induction false} FormUploadsJustified(server: Server, channelId: string, ids: seq<string>, files: seq<Part>,
                                                i: nat, r: Response, uploads: seq<Upload>)
    requires i <= |files|
    ensures var o := FormUploads(server, channelId, ids, files, i, r, uploads);
            o.Finished? && |o.uploads| >= |uploads| &&
            (o.result.Err? ==> |o.uploads| > |uploads| && o.result.error.UploadFailed? &&
                               server.store(o.uploads[|o.uploads| - 1]) == Err(o.result.error.reason))
    decreases |files| - i
  {
    if i < |files| {
      var u := Upload(channelId, files[i], FormIdAt(ids, i));
      var stored := server.store(u);
      if stored.Ok? {
        var r' := Response(r.fileInfos + [stored.value],
                           if u.clientId != "" then r.clientIds + [u.clientId] else r.clientIds);
        FormUploadsJustified(server, channelId, ids, files, i + 1, r', uploads + [u]);
      }
    }
  }

  lemma FirstValue(p: Part, rest: seq<Part>, name: string)
    ensures FieldValues([p] + rest, name) ==
            (if IsFieldNamed(p, name) then [p.content] else []) + FieldValues(rest, name)
  {
    assert ([p] + rest)[1..] == rest;
  }

  lemma FirstFile(p: Part, rest: seq<Part>)
    ensures FileParts([p] + rest, Some(FILES)) ==
            (if IsFile(p) && p.formName == FILES then [p] else []) + FileParts(rest, Some(FILES))
  {
    assert ([p] + rest)[1..] == rest;
  }

  lemma OneFileForm(server: Server, channelId: string, id: string, file: Part, info: string)
    requires id != "" && server.store(Upload(channelId, file, id)) == Ok(info)
    ensures FormUploads(server, channelId, [id], [file], 0, Response([], []), []) ==
            Finished(Ok(Response([info], [id])), channelId, [Upload(channelId, file, id)])
  {
    var u := Upload(channelId, file, id);
    assert [] + [info] == [info] && [] + [id] == [id] && [] + [u] == [u];
    assert FormUploads(server, channelId, [id], [file], 1, Response([info], [id]), [u]) ==
           Finished(Ok(Response([info], [id])), channelId, [u]);
  }

  lemma FormFields(file: Part, channel: Part, idPart: Part)
    requires IsFile(file) && file.formName == "files"
    requires IsField(channel) && channel.formName == "channel_id" && IsField(idPart) && idPart.formName == "client_ids"
    ensures var parts := [file, channel, idPart];
            && FieldValues(parts, CHANNEL_ID) == [channel.content] && FieldValues(parts, CLIENT_IDS) == [idPart.content]
            && FileParts(parts, Some(FILES)) == [file]
  {
    assert CHANNEL_ID[1] != CLIENT_IDS[1];
    assert [channel, idPart] == [channel] + ([idPart] + []) && [file, channel, idPart] == [file] + [channel, idPart];
    forall name ensures FieldValues([file, channel, idPart], name) ==
        (if name == CHANNEL_ID then [channel.content] else []) + (if name == CLIENT_IDS then [idPart.content] else []) {
      FirstValue(idPart, [], name);
      FirstValue(channel, [idPart], name);
      FirstValue(file, [channel, idPart], name);
    }
    FirstFile(idPart, []);
    FirstFile(channel, [idPart]);
    FirstFile(file, [channel, idPart]);
  }

  /** A file, then its channel and its id: a form, in which the three are paired by their names. */
  lemma FormRequest(channelId: string, id: string)
    requires |channelId| == 26 && id != ""
    ensures var server := Server((c: string) => true, (u: Upload) => Ok("info"));
            var file := Part("files", "a.txt", "content", false);
            var m := Message([file, Part("channel_id", "", channelId, false), Part("client_ids", "", id, false)], true);
            Multipart(server, "", m) ==
              Finished(Ok(Response(["info"], [id])), channelId, [Upload(channelId, file, id)])
  {
    var server := Server((c: string) => true, (u: Upload) => Ok("info"));
    var file := Part("files", "a.txt", "content", false);
    var channel, idPart := Part("channel_id", "", channelId, false), Part("client_ids", "", id, false);
    var m := Message([file, channel, idPart], true);
    FormFields(file, channel, idPart);
    OneFileForm(server, channelId, id, file, "info");
    NamelessFileFirst(server, m);
  }

  /** A file before its channel is known makes the request a form. */
  lemma NamelessFileFirst(server: Server, m: Message)
    requires m.parts != [] && IsFile(m.parts[0])
    ensures Multipart(server, "", m) == Legacy(server, "", [], m)
  {
    assert PartStep(server, Fresh("", []), m.parts[0], false) == Stop(NeedsForm("", []));
  }

  // ---------- the request handler ----------

  lemma PassFrom(server: Server, s: Progress, m: Message, i: nat, asStream: bool)
    requires i < |m.parts|
    ensures Pass(server, s, Message(m.parts[i..], m.readable), asStream) ==
            match PartStep(server, s, m.parts[i], asStream)
            case Stop(outcome) => outcome
            case Continue(next) => Pass(server, next, Message(m.parts[i + 1..], m.readable), asStream)
  {
    assert m.parts[i..][1..] == m.parts[i + 1..];
  }

  /** One file of the form pass. */
  lemma FormStep(server: Server, channelId: string, ids: seq<string>, files: seq<Part>, i: nat, r: Response,
                 uploads: seq<Upload>)
    requires i < |files|
    ensures var u := Upload(channelId, files[i], FormIdAt(ids, i));
            var stored := server.store(u);
            FormUploads(server, channelId, ids, files, i, r, uploads) ==
            if stored.Err? then Finished(Err(UploadFailed(stored.error)), channelId, uploads + [u])
            else
              var sent := if u.clientId != "" then r.clientIds + [u.clientId] else r.clientIds;
              FormUploads(server, channelId, ids, files, i + 1, Response(r.fileInfos + [stored.value], sent),
                          uploads + [u])
  {
  }

  /** What a request changes: the channel id parameter and the stored files. */
  class Context {
    var channelId: string
    var uploads: seq<Upload>

    constructor (channelId: string)
      ensures this.channelId == channelId && uploads == []
    {
      this.channelId, uploads := channelId, [];
    }

    /** The part loop. Before the channel is known it runs as a pre-scan and may start over in
        stream mode, which never starts over again. */
    method UploadFileMultipart(server: Server, m: Message, asStream: bool) returns (r: Result<Response, Error>)
      modifies this
      ensures Finished(r, channelId, uploads) ==
              if asStream then Pass(server, Fresh(old(channelId), old(uploads)), m, true)
              else old(MultipartFrom(server, channelId, uploads, m))
      decreases !asStream
    {
      ghost var goal := Pass(server, Fresh(channelId, uploads), m, asStream);
      if asStream {
        StreamFinishes(server, Fresh(channelId, uploads), m);
      }
      var expectClientIds := true;
      var clientIds: seq<string> := [];
      var resp := Response([], []);
      var nFiles := 0;
      var i := 0;
      while i < |m.parts|
        invariant 0 <= i <= |m.parts|
        invariant goal ==
                  Pass(server, Progress(channelId, clientIds, expectClientIds, resp.fileInfos, resp.clientIds, nFiles,
                          uploads),
                       Message(m.parts[i..], m.readable), asStream)
      {
        var part := m.parts[i];
        ghost var before := Progress(channelId, clientIds, expectClientIds, resp.fileInfos, resp.clientIds, nFiles,
                uploads);
        PassFrom(server, before, m, i, asStream);
        i := i + 1;
        if part.formName == "" {
          continue;
        }
        if part.fileName == "" {
          if part.readFails {
            return Err(ReadFormValue(part.formName));
          }
          var v := Value(part);
          if part.formName == CHANNEL_ID {
            if channelId != "" && channelId != v {
              return Err(MultipleChannelIds);
            }
            if v != "" {
              channelId := v;
            }
            if !asStream {
              r := UploadFileMultipart(server, m, true);
              return;
            }
          } else if part.formName == CLIENT_IDS {
            if !expectClientIds {
              return Err(InvalidParam(CLIENT_IDS));
            }
            clientIds := clientIds + [v];
          } else {
            return Err(InvalidParam(part.formName));
          }
          assert FieldStep(before, part, asStream) ==
                 Continue(Progress(channelId, clientIds, expectClientIds, resp.fileInfos, resp.clientIds, nFiles,
                         uploads));
          continue;
        }
        if channelId == "" && !asStream {
          r := UploadFileMultipartLegacy(server, m);
          return;
        }
        if |channelId| != 26 {
          return Err(InvalidParam(CHANNEL_ID));
        }
        if !server.mayUpload(channelId) {
          return Err(NoPermission);
        }
        if nFiles == 0 && clientIds == [] {
          expectClientIds := false;
        }
        var clientId := "";
        if expectClientIds {
          if nFiles >= |clientIds| {
            return Err(InvalidParam(CLIENT_IDS));
          }
          clientId := clientIds[nFiles];
        }
        var upload := Upload(channelId, part, clientId);
        uploads := uploads + [upload];
        var stored := StoreFile(server, upload);
        if stored.Err? {
          return Err(UploadFailed(stored.error));
        }
        resp := Response(resp.fileInfos + [stored.value],
                         if expectClientIds then resp.clientIds + [clientId] else resp.clientIds);
        nFiles := nFiles + 1;
        assert FileStep(server, before, part, asStream) ==
               Continue(Progress(channelId, clientIds, expectClientIds, resp.fileInfos, resp.clientIds, nFiles,
                       uploads));
      }
      if !m.readable {
        return Err(ReadRequest);
      }
      if expectClientIds && |clientIds| != nFiles {
        return Err(IncorrectNumberOfClientIds(|clientIds|, nFiles));
      }
      return Ok(resp);
    }

    method UploadFileMultipartLegacy(server: Server, m: Message) returns (r: Result<Response, Error>)
      modifies this
      ensures Finished(r, channelId, uploads) == Legacy(server, old(channelId), old(uploads), m)
    {
      if !FormReadable(m) {
        return Err(ReadRequest);
      }
      var channelIds := FieldValues(m.parts, CHANNEL_ID);
      if channelIds == [] {
        return Err(InvalidParam(CHANNEL_ID));
      }
      channelId := channelIds[0];
      if |channelId| != 26 {
        return Err(InvalidParam(CHANNEL_ID));
      }
      if !server.mayUpload(channelId) {
        return Err(NoPermission);
      }
      var clientIds := FieldValues(m.parts, CLIENT_IDS);
      var files := FileParts(m.parts, Some(FILES));
      if clientIds != [] && |clientIds| != |files| {
        return Err(IncorrectNumberOfClientIds(|clientIds|, |files|));
      }
      var resp := Response([], []);
      var i := 0;
      while i < |files|
        invariant 0 <= i <= |files| && channelId == channelIds[0]
        invariant FormUploads(server, channelId, clientIds, files, 0, Response([], []), old(uploads)) ==
                  FormUploads(server, channelId, clientIds, files, i, resp, uploads)
      {
        FormStep(server, channelId, clientIds, files, i, resp, uploads);
        var clientId := "";
        if |clientIds| > 0 {
          clientId := clientIds[i];
        }
        var upload := Upload(channelId, files[i], clientId);
        uploads := uploads + [upload];
        var stored := server.store(upload);
        if stored.Err? {
          return Err(UploadFailed(stored.error));
        }
        resp := Response(resp.fileInfos + [stored.value],
                         if clientId != "" then resp.clientIds + [clientId] else resp.clientIds);
        i := i + 1;
      }
      return Ok(resp);
    }
  }
}
