/**
 * The list-view command set: two command-bar buttons that are shown only on
 * the list titled `Client & Partner Data`, and a dispatcher that opens the
 * project or the client dialog.
 */
module CommandSet {
  import opened Wrappers
  import opened FolderPaths

  const TargetListTitle: string := "Client & Partner Data"
  const ProjectCommandId: string := "COMMAND_1"
  const ClientCommandId: string := "COMMAND_2"
  const ProjectDialogMessage: string := "What is your project's name?"
  const ClientDialogMessage: string := "What is your client's name?"

  /** Both commands are visible exactly on the target list. */
  predicate CommandsVisible(ctx: PageContext) {
    ctx.listTitle == TargetListTitle
  }

  datatype DialogKind = NewProject | NewClient

  /** A dialog that `onExecute` created, filled in and showed. */
  datatype ShownDialog = ShownDialog(kind: DialogKind, message: string, context: PageContext)

  class ProjectClientHelperCommandSet {
    /** The extension's page context. */
    const context: PageContext
    /** `tryGetCommand('COMMAND_1')` / `tryGetCommand('COMMAND_2')` find a command. */
    const hasProjectCommand: bool
    const hasClientCommand: bool
    /** The `visible` fields of those two commands. */
    var projectCommandVisible: bool
    var clientCommandVisible: bool

    constructor (context: PageContext, hasProjectCommand: bool, hasClientCommand: bool,
                 projectCommandVisible: bool, clientCommandVisible: bool)
      ensures this.context == context
      ensures this.hasProjectCommand == hasProjectCommand && this.hasClientCommand == hasClientCommand
      ensures this.projectCommandVisible == projectCommandVisible
      ensures this.clientCommandVisible == clientCommandVisible
    {
      this.context := context;
      this.hasProjectCommand := hasProjectCommand;
      this.hasClientCommand := hasClientCommand;
      this.projectCommandVisible := projectCommandVisible;
      this.clientCommandVisible := clientCommandVisible;
    }

    /**
     * `onInit`: set both commands' visibility from the list title. The
     * assignments are unguarded, so a command that `tryGetCommand` did not find
     * makes the assignment throw (`ok` is false) and stops what follows.
     */
    method OnInit() returns (ok: bool)
      modifies this
      ensures ok <==> hasProjectCommand && hasClientCommand
      ensures ok ==> projectCommandVisible == clientCommandVisible == CommandsVisible(context)
      ensures hasProjectCommand ==> projectCommandVisible == CommandsVisible(context)
      ensures !hasProjectCommand ==> projectCommandVisible == old(projectCommandVisible)
      ensures !ok ==> clientCommandVisible == old(clientCommandVisible)
    {
      if !hasProjectCommand {
        return false;
      }
      projectCommandVisible := CommandsVisible(context);
      if !hasClientCommand {
        return false;
      }
      clientCommandVisible := CommandsVisible(context);
      ok := true;
    }

    /**
     * `onListViewUpdated`: the same rule, applied only to the commands that
     * were found; a missing command is left alone.
     */
    method OnListViewUpdated()
      modifies this
      ensures projectCommandVisible == if hasProjectCommand then CommandsVisible(context) else old(projectCommandVisible)
      ensures clientCommandVisible == if hasClientCommand then CommandsVisible(context) else old(clientCommandVisible)
    {
      if hasProjectCommand {
        projectCommandVisible := CommandsVisible(context);
      }
      if hasClientCommand {
        clientCommandVisible := CommandsVisible(context);
      }
    }

    /**
     * `onExecute`: `COMMAND_1` shows a project dialog and `COMMAND_2` a client
     * dialog, each with its prompt and this command set's context; any other
     * id throws `Error('Unknown command')` and shows nothing.
     */
    method OnExecute(itemId: string) returns (r: Result<ShownDialog, string>)
      ensures r.Success? <==> itemId == ProjectCommandId || itemId == ClientCommandId
      ensures r.Success? ==> r.value.context == context
      ensures r.Success? ==> (r.value.kind == NewProject <==> itemId == ProjectCommandId)
      ensures r.Success? ==>
        r.value.message == if r.value.kind == NewProject then ProjectDialogMessage else ClientDialogMessage
      ensures r.Failure? ==> r.error == "Unknown command"
    {
      if itemId == ProjectCommandId {
        r := Success(ShownDialog(NewProject, ProjectDialogMessage, context));
      } else if itemId == ClientCommandId {
        r := Success(ShownDialog(NewClient, ClientDialogMessage, context));
      } else {
        r := Failure("Unknown command");
      }
    }
  }

  /**
   * After a successful `onInit`, and after any later list-view update, a user
   * sees both buttons on the target list and neither elsewhere.
   */
  method InitThenUpdate(context: PageContext, projectVisible: bool, clientVisible: bool)
    returns (ok: bool, projectShown: bool, clientShown: bool)
    ensures ok
    ensures projectShown == clientShown == (context.listTitle == "Client & Partner Data")
  {
    var commands := new ProjectClientHelperCommandSet(context, true, true, projectVisible, clientVisible);
    ok := commands.OnInit();
    commands.OnListViewUpdated();
    projectShown, clientShown := commands.projectCommandVisible, commands.clientCommandVisible;
  }
}
