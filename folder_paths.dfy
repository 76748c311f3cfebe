/**
 * The URLs and paths the two dialogs derive from the page context before
 * talking to SharePoint: the tenant root, the parent folder, the new folder's
 * server-relative and absolute URLs, and the template folder to copy.
 */
module FolderPaths {
  import opened Wrappers
  import opened JsString
  import opened NameSanitizer

  /** The part of `this.context.pageContext` the dialogs read. */
  datatype PageContext = PageContext(
    listTitle: string,      // list.title
    listUrl: string,        // list.serverRelativeUrl
    webUrl: string,         // web.serverRelativeUrl
    webAbsoluteUrl: string  // web.absoluteUrl
  )

  const ProjectTemplateFolder: string := "/02. Project Folder Template"
  const ClientTemplateFolder: string := "/01. Client Folder Template"

  /**
   * `tenantUrl` / `rootPath`: the web's absolute URL with the first occurrence
   * of its server-relative URL removed, but only when that URL is longer than
   * one character (a root web's `/` is left in place).
   */
  function TenantRoot(ctx: PageContext): (r: string)
    ensures |ctx.webUrl| <= 1 ==> r == ctx.webAbsoluteUrl
    ensures |r| <= |ctx.webAbsoluteUrl|
  {
    if |ctx.webUrl| > 1 then ReplaceFirst(ctx.webAbsoluteUrl, ctx.webUrl, "")
    else ctx.webAbsoluteUrl
  }

  /**
   * When the absolute URL is `root + webUrl` and the web's URL first occurs at
   * that end, the tenant root is `root`, and putting the web's URL back gives
   * the absolute URL again.
   */
  lemma TenantRootOfSiteUrl(ctx: PageContext, root: string)
    requires |ctx.webUrl| > 1
    requires ctx.webAbsoluteUrl == root + ctx.webUrl
    requires forall j: nat :: j < |root| ==> !OccursAt(ctx.webAbsoluteUrl, ctx.webUrl, j)
    ensures TenantRoot(ctx) == root
    ensures TenantRoot(ctx) + ctx.webUrl == ctx.webAbsoluteUrl
  {
    var abs := ctx.webAbsoluteUrl;
    assert abs[|root|..|root| + |ctx.webUrl|] == ctx.webUrl;
    ReplaceFirstAt(abs, ctx.webUrl, "", |root|);
    assert abs[..|root|] == root;
  }

  /** A web URL that does not occur in the absolute URL removes nothing. */
  lemma TenantRootWithoutOccurrence(ctx: PageContext)
    requires forall j: nat :: !OccursAt(ctx.webAbsoluteUrl, ctx.webUrl, j)
    ensures TenantRoot(ctx) == ctx.webAbsoluteUrl
  {
    ReplaceFirstAbsent(ctx.webAbsoluteUrl, ctx.webUrl, "");
  }

  /**
   * For a web URL longer than one character, the tenant root is the absolute
   * URL with the first occurrence of the web URL cut out.
   */
  lemma TenantRootCutsFirstOccurrence(ctx: PageContext, i: nat)
    requires |ctx.webUrl| > 1
    requires OccursAt(ctx.webAbsoluteUrl, ctx.webUrl, i)
    requires forall j: nat :: j < i ==> !OccursAt(ctx.webAbsoluteUrl, ctx.webUrl, j)
    ensures TenantRoot(ctx) == ctx.webAbsoluteUrl[..i] + ctx.webAbsoluteUrl[i + |ctx.webUrl|..]
  {
    ReplaceFirstAt(ctx.webAbsoluteUrl, ctx.webUrl, "", i);
  }

  /**
   * It is the FIRST occurrence of the web's URL that goes, not the trailing
   * one: when the web's URL also shows up earlier in the absolute URL (a web
   * `/t` under `https://tenant/t`), that earlier copy is cut and the trailing
   * one stays in the tenant root.
   */
  lemma TenantRootRemovesFirstOccurrence(ctx: PageContext, i: nat)
    requires |ctx.webUrl| > 1
    requires OccursAt(ctx.webAbsoluteUrl, ctx.webUrl, i)
    requires forall j: nat :: j < i ==> !OccursAt(ctx.webAbsoluteUrl, ctx.webUrl, j)
    requires i + 2 * |ctx.webUrl| <= |ctx.webAbsoluteUrl|
    requires OccursAt(ctx.webAbsoluteUrl, ctx.webUrl, |ctx.webAbsoluteUrl| - |ctx.webUrl|)
    ensures TenantRoot(ctx) == ctx.webAbsoluteUrl[..i] + ctx.webAbsoluteUrl[i + |ctx.webUrl|..]
    ensures var r := TenantRoot(ctx); |r| >= |ctx.webUrl| && r[|r| - |ctx.webUrl|..] == ctx.webUrl
  {
    var abs, w := ctx.webAbsoluteUrl, ctx.webUrl;
    TenantRootCutsFirstOccurrence(ctx, i);
    var r := abs[..i] + abs[i + |w|..];
    assert r[|r| - |w|..] == abs[|abs| - |w|..];
  }

  /**
   * The project dialog's parent folder: the list's URL, unless the page's query
   * string has an `ID` parameter, whose decoded value then replaces it.
   */
  function ProjectFolderPath(ctx: PageContext, idParam: Option<string>): (r: string)
    ensures idParam.Some? ==> r == idParam.value
    ensures idParam.None? ==> r == ctx.listUrl
  {
    match idParam
    case Some(decoded) => decoded
    case None => ctx.listUrl
  }

  /** `newFolderRelativeUrl`: the parent folder, a slash, the name. */
  function NewFolderRelativeUrl(folder: string, name: string): (r: string)
    ensures |r| == |folder| + 1 + |name|
    ensures r[..|folder|] == folder && r[|folder|] == '/' && r[|folder| + 1..] == name
  {
    folder + "/" + name
  }

  /** `newFolderUrl`: the tenant root followed by the new folder's relative URL. */
  function NewFolderUrl(ctx: PageContext, folder: string, name: string): (r: string)
    ensures r == TenantRoot(ctx) + NewFolderRelativeUrl(folder, name)
  {
    TenantRoot(ctx) + folder + "/" + name
  }

  /**
   * Two clean names (no `/`) give the same relative URL only when folder and
   * name are both the same: the name is what follows the last slash.
   */
  lemma {:induction false} NewFolderRelativeUrlInjective(f1: string, n1: string, f2: string, n2: string)
    requires IsClean(n1) && IsClean(n2)
    requires NewFolderRelativeUrl(f1, n1) == NewFolderRelativeUrl(f2, n2)
    ensures f1 == f2 && n1 == n2
  {
    var r := NewFolderRelativeUrl(f1, n1);
    assert |f1| == |f2|;
    assert f1 == r[..|f1|];
  }

  /** `createFolderCopy`'s `listPath` in the project dialog. */
  function ProjectTemplateSource(ctx: PageContext): (r: string)
    ensures r == TenantRoot(ctx) + ctx.listUrl + ProjectTemplateFolder
  {
    TenantRoot(ctx) + ctx.listUrl + "/02. Project Folder Template"
  }

  /**
   * `createFolderCopy`'s `destPath` in the project dialog: it re-reads the
   * `ID` parameter and the tenant root, and lands on the very URL `_submit`
   * navigates to.
   */
  function ProjectCopyDestination(ctx: PageContext, idParam: Option<string>, folderName: string): (r: string)
    ensures r == NewFolderUrl(ctx, ProjectFolderPath(ctx, idParam), folderName)
  {
    var folderPath := if idParam.Some? then idParam.value else ctx.listUrl;
    TenantRoot(ctx) + folderPath + "/" + folderName
  }

  /** `createFolderCopy`'s `listPath` in the client dialog. */
  function ClientTemplateSource(ctx: PageContext): (r: string)
    ensures r == TenantRoot(ctx) + ctx.listUrl + ClientTemplateFolder
  {
    TenantRoot(ctx) + ctx.listUrl + "/01. Client Folder Template"
  }

  /** `createFolderCopy`'s `destPath` in the client dialog: always under the list. */
  function ClientCopyDestination(ctx: PageContext, folderName: string): (r: string)
    ensures r == NewFolderUrl(ctx, ctx.listUrl, folderName)
  {
    TenantRoot(ctx) + ctx.listUrl + "/" + folderName
  }
}
