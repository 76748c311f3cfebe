/**
 * What each dialog's `_submit` does with the submitted name, as the sequence
 * of calls and effects it issues. Every SharePoint answer is an input: the
 * chain is a function from the scripted replies to the trace of events.
 */
module SubmitWorkflow {
  import opened Wrappers
  import opened JsString
  import opened NameSanitizer
  import opened FolderPaths

  /** One observable step of the chain. */
  datatype Event =
    | CheckExists(path: string)                 // GET GetFolderByServerRelativeUrl('<path>')/Exists
    | Copy(source: string, destination: string) // POST SP.MoveCopyUtil.CopyFolderByPath()
    | GetId(path: string)                       // GET getfolderbyserverrelativeurl('<path>')?$expand=ListItemAllFields
    | Patch(id: Option<int>)                    // MERGE {"IsProjectFolder":true} into items(<id>)
    | Alert(message: string)                    // Dialog.alert(...)
    | Close                                     // this.close()
    | Navigate(url: string)                     // location.href = ...

  /**
   * What `isFolderDuplicate` resolves to. `Rejected`: the request or its JSON
   * failed and the `.catch(() => {})` produced `undefined`. `Resolved(v)`: a
   * JSON body whose `value` field is `v` (`None` when the body has none, as an
   * error body does).
   */
  datatype ExistsReply = Rejected | Resolved(value: Option<bool>)

  /** Only a `value` that is `true` makes `if (isDuplicate)` take the alert branch. */
  predicate IsDuplicate(reply: ExistsReply) {
    reply == Resolved(Some(true))
  }

  /** The chain goes on to the copy: the reply resolved and its `value` is not `true`. */
  predicate Proceeds(reply: ExistsReply) {
    reply.Resolved? && reply.value != Some(true)
  }

  /**
   * Every existence reply takes exactly one of the three ways out of
   * `if (isDuplicate)`: the throw on a rejected check, the alert, or the copy.
   */
  lemma ExistsReplyCases(reply: ExistsReply)
    ensures reply.Rejected? || IsDuplicate(reply) || Proceeds(reply)
    ensures !(reply.Rejected? && IsDuplicate(reply))
    ensures !(reply.Rejected? && Proceeds(reply))
    ensures !(IsDuplicate(reply) && Proceeds(reply))
  {
  }

  /**
   * The project dialog's four replies: the existence check, the copy's
   * boolean, the item ID (`None` for `undefined`, what the lookup's catch
   * yields) and the patch's boolean.
   */
  datatype ProjectReplies = ProjectReplies(existence: ExistsReply, copied: bool, id: Option<int>, patched: bool)

  /** The client dialog's two replies: the existence check and the copy's boolean. */
  datatype ClientReplies = ClientReplies(existence: ExistsReply, copied: bool)

  /** The alert text for a name that is taken. */
  function DuplicateMessage(name: string): string {
    "A folder with the name '" + name + "' already exists"
  }

  /** The trace contains no copy request. */
  predicate NoCopy(trace: seq<Event>) {
    forall i :: 0 <= i < |trace| ==> !trace[i].Copy?
  }

  /**
   * What `_submit` computes before its first request: the trimmed name, the
   * new folder's relative and absolute URLs, and the template and destination
   * `createFolderCopy` will use.
   */
  datatype SubmitPaths = SubmitPaths(
    name: string,
    relativeUrl: string,
    folderUrl: string,
    templateSource: string,
    copyDestination: string
  )

  /**
   * The project dialog's paths: the `ID` parameter, when present, replaces the
   * list as parent folder; the template is always the one next to the list;
   * the copy lands where the browser will be sent.
   */
  function ProjectPaths(ctx: PageContext, idParam: Option<string>, val: string): (p: SubmitPaths)
    ensures p.name == Trim(val)
    ensures p.relativeUrl == NewFolderRelativeUrl(ProjectFolderPath(ctx, idParam), p.name)
    ensures p.folderUrl == TenantRoot(ctx) + p.relativeUrl
    ensures p.copyDestination == p.folderUrl
    ensures p.templateSource == TenantRoot(ctx) + ctx.listUrl + ProjectTemplateFolder
  {
    var newFolderName := Trim(val);
    var folderPath := ProjectFolderPath(ctx, idParam);
    SubmitPaths(newFolderName,
                NewFolderRelativeUrl(folderPath, newFolderName),
                NewFolderUrl(ctx, folderPath, newFolderName),
                ProjectTemplateSource(ctx),
                ProjectCopyDestination(ctx, idParam, newFolderName))
  }

  /** The client dialog's paths: always under the list, with the client template. */
  function ClientPaths(ctx: PageContext, val: string): (p: SubmitPaths)
    ensures p.name == Trim(val)
    ensures p.relativeUrl == NewFolderRelativeUrl(ctx.listUrl, p.name)
    ensures p.folderUrl == TenantRoot(ctx) + p.relativeUrl
    ensures p.copyDestination == p.folderUrl
    ensures p.templateSource == TenantRoot(ctx) + ctx.listUrl + ClientTemplateFolder
  {
    var newFolderName := Trim(val);
    SubmitPaths(newFolderName,
                NewFolderRelativeUrl(ctx.listUrl, newFolderName),
                NewFolderUrl(ctx, ctx.listUrl, newFolderName),
                ClientTemplateSource(ctx),
                ClientCopyDestination(ctx, newFolderName))
  }

  /**
   * The project dialog's promise chain: check for a duplicate, and then either
   * alert and close, or copy the template, look up the new folder's ID, patch
   * it, close and navigate. A rejected check leaves `response` undefined and
   * reading `response.value` throws, so nothing follows it.
   */
  function ProjectChain(p: SubmitPaths, replies: ProjectReplies): (trace: seq<Event>)
    ensures |trace| >= 1 && trace[0] == CheckExists(p.relativeUrl)
    ensures Close in trace <==> replies.existence.Resolved?
    ensures NoCopy(trace) <==> !Proceeds(replies.existence)
    ensures Proceeds(replies.existence) ==>
      trace[1] == Copy(p.templateSource, p.copyDestination) && trace[|trace| - 1] == Navigate(p.folderUrl)
    ensures IsDuplicate(replies.existence) ==> Alert(DuplicateMessage(p.name)) in trace
  {
    var check := CheckExists(p.relativeUrl);
    match replies.existence
    case Rejected => [check]
    case Resolved(isDuplicate) =>
      if isDuplicate == Some(true) then
        [check, Alert(DuplicateMessage(p.name)), Close]
      else
        var trace := [check,
                      Copy(p.templateSource, p.copyDestination),
                      GetId(p.relativeUrl),
                      Patch(replies.id),
                      Close,
                      Navigate(p.folderUrl)];
        assert trace[1].Copy?;
        trace
  }

  /**
   * The client dialog's promise chain: the same check; on no duplicate, one
   * copy of the template, then navigation to the new folder and close. No ID
   * lookup and no patch.
   */
  function ClientChain(p: SubmitPaths, replies: ClientReplies): (trace: seq<Event>)
    ensures |trace| >= 1 && trace[0] == CheckExists(p.relativeUrl)
    ensures Close in trace <==> replies.existence.Resolved?
    ensures NoCopy(trace) <==> !Proceeds(replies.existence)
    ensures Proceeds(replies.existence) ==>
      trace[1] == Copy(p.templateSource, p.copyDestination) && Navigate(p.folderUrl) in trace
    ensures IsDuplicate(replies.existence) ==> Alert(DuplicateMessage(p.name)) in trace
  {
    var check := CheckExists(p.relativeUrl);
    match replies.existence
    case Rejected => [check]
    case Resolved(isDuplicate) =>
      if isDuplicate == Some(true) then
        [check, Alert(DuplicateMessage(p.name)), Close]
      else
        var trace := [check, Copy(p.templateSource, p.copyDestination), Navigate(p.folderUrl), Close];
        assert trace[1].Copy?;
        trace
  }

  /** `NewProjectDialog._submit(val)`: derive the paths, then run the chain. */
  function ProjectSubmit(ctx: PageContext, idParam: Option<string>, val: string, replies: ProjectReplies): (trace: seq<Event>)
    ensures |trace| >= 1
    ensures trace[0] == CheckExists(NewFolderRelativeUrl(ProjectFolderPath(ctx, idParam), Trim(val)))
    ensures Proceeds(replies.existence) ==>
      trace[|trace| - 1] == Navigate(TenantRoot(ctx) + NewFolderRelativeUrl(ProjectFolderPath(ctx, idParam), Trim(val)))
  {
    ProjectChain(ProjectPaths(ctx, idParam, val), replies)
  }

  /** `NewClientDialog._submit(val)`: derive the paths, then run the chain. */
  function ClientSubmit(ctx: PageContext, val: string, replies: ClientReplies): (trace: seq<Event>)
    ensures |trace| >= 1
    ensures trace[0] == CheckExists(NewFolderRelativeUrl(ctx.listUrl, Trim(val)))
    ensures Proceeds(replies.existence) ==>
      Navigate(TenantRoot(ctx) + NewFolderRelativeUrl(ctx.listUrl, Trim(val))) in trace
  {
    ClientChain(ClientPaths(ctx, val), replies)
  }

  /** The alert quotes the trimmed name between the fixed prefix and suffix. */
  lemma DuplicateMessageNamesFolder(name: string)
    ensures var m := DuplicateMessage(name);
      |m| == 24 + |name| + 16 && m[24..24 + |name|] == name
  {
  }

  /** A taken name: alert naming the trimmed name, close, and no further request. */
  lemma ProjectDuplicateStops(p: SubmitPaths, replies: ProjectReplies)
    requires IsDuplicate(replies.existence)
    ensures ProjectChain(p, replies) == [CheckExists(p.relativeUrl), Alert(DuplicateMessage(p.name)), Close]
  {
  }

  /**
   * A rejected existence check throws at `response.value`: the check is the
   * only event, so there is no copy and the dialog is never closed.
   */
  lemma ProjectRejectedCheckStops(p: SubmitPaths, replies: ProjectReplies)
    requires replies.existence.Rejected?
    ensures ProjectChain(p, replies) == [CheckExists(p.relativeUrl)]
  {
  }

  /** No duplicate: the project chain's six events, over the derived paths. */
  lemma ProjectChainProceeds(p: SubmitPaths, replies: ProjectReplies)
    requires Proceeds(replies.existence)
    ensures ProjectChain(p, replies) ==
      [CheckExists(p.relativeUrl), Copy(p.templateSource, p.copyDestination), GetId(p.relativeUrl),
       Patch(replies.id), Close, Navigate(p.folderUrl)]
  {
  }

  /**
   * No duplicate: copy the template onto the new folder's URL, look up the
   * ID at the same relative URL that was checked, patch the item with the ID
   * that lookup gave, close, and navigate to the folder the copy created.
   */
  lemma ProjectChainOrder(ctx: PageContext, idParam: Option<string>, val: string, replies: ProjectReplies)
    requires Proceeds(replies.existence)
    ensures var rel := NewFolderRelativeUrl(ProjectFolderPath(ctx, idParam), Trim(val));
      var url := TenantRoot(ctx) + rel;
      ProjectSubmit(ctx, idParam, val, replies) ==
        [CheckExists(rel), Copy(TenantRoot(ctx) + ctx.listUrl + ProjectTemplateFolder, url),
         GetId(rel), Patch(replies.id), Close, Navigate(url)]
  {
    var p := ProjectPaths(ctx, idParam, val);
    ProjectChainProceeds(p, replies);
  }

  /** The copy's and the patch's booleans are never looked at. */
  lemma ProjectIgnoresCopyAndPatchResults(p: SubmitPaths, r1: ProjectReplies, r2: ProjectReplies)
    requires r1.existence == r2.existence && r1.id == r2.id
    ensures ProjectChain(p, r1) == ProjectChain(p, r2)
  {
  }

  /** The template source does not depend on the `ID` parameter; the destination does. */
  lemma ProjectTemplateIgnoresIdParam(ctx: PageContext, id1: Option<string>, id2: Option<string>, val: string)
    ensures ProjectPaths(ctx, id1, val).templateSource == ProjectPaths(ctx, id2, val).templateSource
    ensures ProjectPaths(ctx, Some(ctx.listUrl), val) == ProjectPaths(ctx, None, val)
  {
  }

  /** A taken client name: alert naming the trimmed name, close, no copy. */
  lemma ClientDuplicateStops(p: SubmitPaths, replies: ClientReplies)
    requires IsDuplicate(replies.existence)
    ensures ClientChain(p, replies) == [CheckExists(p.relativeUrl), Alert(DuplicateMessage(p.name)), Close]
  {
  }

  /**
   * A rejected client check throws at `response.value` as well: the check is
   * the only event, with no alert, no copy, no navigation and no close.
   */
  lemma ClientRejectedCheckStops(p: SubmitPaths, replies: ClientReplies)
    requires replies.existence.Rejected?
    ensures ClientChain(p, replies) == [CheckExists(p.relativeUrl)]
  {
  }

  /**
   * No duplicate: exactly one copy of the client template onto the new
   * folder's URL, then navigation there, then close, whatever the copy returned.
   */
  lemma ClientChainOrder(ctx: PageContext, val: string, replies: ClientReplies)
    requires Proceeds(replies.existence)
    ensures var trace := ClientSubmit(ctx, val, replies);
      && |trace| == 4
      && trace[1] == Copy(TenantRoot(ctx) + ctx.listUrl + ClientTemplateFolder, TenantRoot(ctx) + trace[0].path)
      && trace[2] == Navigate(trace[1].destination) && trace[3] == Close
    ensures ClientSubmit(ctx, val, replies) == ClientSubmit(ctx, val, replies.(copied := !replies.copied))
  {
    var p := ClientPaths(ctx, val);
    assert p.copyDestination == p.folderUrl == TenantRoot(ctx) + p.relativeUrl;
    assert ClientSubmit(ctx, val, replies) == ClientChain(p, replies);
  }

  /** The client flow never looks up an item ID and never patches metadata. */
  lemma ClientNeverTagsFolder(p: SubmitPaths, replies: ClientReplies)
    ensures forall e :: e in ClientChain(p, replies) ==> !e.GetId? && !e.Patch?
  {
  }

  /**
   * The folder a dialog creates for typed text `raw` is named by a clean name
   * of at most 255 characters: the name `submitClick` hands over is sanitised,
   * and trimming only cuts its ends.
   */
  lemma SubmittedFolderNameIsClean(raw: string)
    ensures IsClean(Trim(Sanitize(raw))) && |Trim(Sanitize(raw))| <= CharacterLimit
  {
    var s := Sanitize(raw);
    TrimKeepsCharacters(s);
    forall k | 0 <= k < |Trim(s)| ensures !IsReserved(Trim(s)[k]) {
      var c := Trim(s)[k];
      assert c in s;
      var i :| 0 <= i < |s| && s[i] == c;
    }
  }

  /**
   * For a web whose absolute URL is `root` followed by its server-relative URL
   * (and that URL does not occur earlier), a project created without an `ID`
   * parameter is checked at `list URL + "/" + name`, copied from
   * `root + list URL + template` and opened at `root + list URL + "/" + name`.
   */
  lemma ProjectUnderSiteRoot(ctx: PageContext, root: string, val: string)
    requires |ctx.webUrl| > 1 && ctx.webAbsoluteUrl == root + ctx.webUrl
    requires forall j: nat :: j < |root| ==> !OccursAt(ctx.webAbsoluteUrl, ctx.webUrl, j)
    ensures var p := ProjectPaths(ctx, None, val);
      && p.relativeUrl == ctx.listUrl + "/" + Trim(val)
      && p.templateSource == root + ctx.listUrl + ProjectTemplateFolder
      && p.folderUrl == p.copyDestination == root + ctx.listUrl + "/" + Trim(val)
  {
    TenantRootOfSiteUrl(ctx, root);
  }
}
