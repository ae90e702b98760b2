/**
 * The organizer panel's state and its mutating operations
 * (project-organizer/main.ts:64-330). The view owns the current project
 * file and the in-memory `projectData`; every operation changes the two
 * task sequences in place and then writes the whole store back to the
 * project file. Rendering and notices are not modelled.
 */
module ProjectOrganizer {
  import opened Wrappers
  import opened TaskStore

  /** What the "+ New Task" flow did (project-organizer/main.ts:272-289, 376-382). */
  datatype AddOutcome =
    | NoProjectFile        // "Please select a project file first"
    | MissingFields        // "Please fill in all fields"
    | Added(task: TaskItem)

  class ProjectOrganizerView {
    var tasks: seq<TaskItem>
    var archived: seq<TaskItem>
    /** Path of the selected project file, if any. */
    var currentProjectFile: Option<string>
    /** The store last written to each project file by `SaveProjectData`. */
    var persisted: map<string, ProjectData>

    function Data(): (d: ProjectData)
      reads this
    {
      ProjectData(tasks, archived)
    }

    /** The selected project file holds exactly the in-memory store. */
    ghost predicate InSync()
      reads this
    {
      currentProjectFile.Some? ==>
        currentProjectFile.value in persisted && persisted[currentProjectFile.value] == Data()
    }

    /**
     * What a save leaves in `persisted`, given its content `before`: the
     * current file's entry is the in-memory store, every other file keeps its
     * content, and nothing changes when there is no current file.
     */
    ghost predicate SavedOver(before: map<string, ProjectData>)
      reads this
    {
      && (currentProjectFile.None? ==> persisted == before)
      && (currentProjectFile.Some? ==> persisted == before[currentProjectFile.value := Data()])
    }

    constructor ()
      ensures Data() == EmptyProject && currentProjectFile == None && persisted == map[]
    {
      tasks, archived := [], [];
      currentProjectFile := None;
      persisted := map[];
    }

    /**
     * `saveProjectData`: with no project file it only notifies; otherwise
     * the whole store replaces the file's content.
     */
    method SaveProjectData()
      modifies this`persisted
      ensures currentProjectFile.None? ==> persisted == old(persisted)
      ensures currentProjectFile.Some? ==>
        persisted == old(persisted)[currentProjectFile.value := Data()]
      ensures InSync()
    {
      if currentProjectFile.Some? {
        persisted := persisted[currentProjectFile.value := Data()];
      }
    }

    /**
     * `loadProjectData`: `parsed` is what reading and parsing the project
     * file gave, `None` when either threw. Without a project file nothing
     * happens; a failed parse yields the empty store.
     */
    method LoadProjectData(parsed: Option<ProjectData>)
      modifies this`tasks, this`archived
      ensures currentProjectFile.None? ==> Data() == old(Data())
      ensures currentProjectFile.Some? && parsed.Some? ==> Data() == parsed.value
      ensures currentProjectFile.Some? && parsed.None? ==> tasks == [] && archived == []
    {
      if currentProjectFile.None? {
        return;
      }
      match parsed {
        case Some(data) => tasks, archived := data.tasks, data.archived;
        case None => tasks, archived := EmptyProject.tasks, EmptyProject.archived;
      }
    }

    /** Choosing a file in the file picker makes it current and loads it. */
    method SelectProjectFile(path: string, parsed: Option<ProjectData>)
      modifies this`currentProjectFile, this`tasks, this`archived
      ensures currentProjectFile == Some(path) && persisted == old(persisted)
      ensures Data() == if parsed.Some? then parsed.value else EmptyProject
    {
      currentProjectFile := Some(path);
      LoadProjectData(parsed);
    }

    /**
     * The "+ New Task" flow: no modal without a project file; the modal
     * submits only when both fields are non-empty; the callback pushes a
     * task with the given `id` (the source takes it from the clock) and saves.
     */
    method AddTask(title: string, filePath: string, id: string) returns (outcome: AddOutcome)
      modifies this`tasks, this`persisted
      ensures currentProjectFile.None? <==> outcome == NoProjectFile
      ensures currentProjectFile.Some? && (title == "" || filePath == "") <==> outcome == MissingFields
      ensures outcome.Added? ==>
        && outcome.task == TaskItem(id, title, filePath)
        && Data() == TaskStore.AddTask(old(Data()), outcome.task)
        && InSync() && SavedOver(old(persisted))
      ensures !outcome.Added? ==> Data() == old(Data()) && persisted == old(persisted)
      ensures UniqueIds(old(Data())) && !HasId(old(tasks), id) && !HasId(old(archived), id)
        ==> UniqueIds(Data())
    {
      if currentProjectFile.None? {
        return NoProjectFile;
      }
      if title == "" || filePath == "" {
        return MissingFields;
      }
      var newTask := TaskItem(id, title, filePath);
      if UniqueIds(Data()) && !HasId(tasks, id) && !HasId(archived, id) {
        AddTaskKeepsUniqueIds(Data(), newTask);
      }
      tasks := tasks + [newTask];
      SaveProjectData();
      outcome := Added(newTask);
    }

    /**
     * `moveTask(fromIndex, toIndex)`: splice the task out, splice it back in
     * at `toIndex`, save. Every caller passes two positions of `tasks`.
     */
    method MoveTask(fromIndex: nat, toIndex: nat)
      requires fromIndex < |tasks| && toIndex < |tasks|
      modifies this`tasks, this`persisted
      ensures tasks == Move(old(tasks), fromIndex, toIndex) && archived == old(archived)
      ensures InSync() && SavedOver(old(persisted))
      ensures UniqueIds(old(Data())) ==> UniqueIds(Data())
    {
      ghost var before := Data();
      var task := tasks[fromIndex];
      tasks := RemoveAt(tasks, fromIndex);
      tasks := InsertAt(tasks, toIndex, task);
      assert Data() == TaskStore.MoveTask(before, fromIndex, toIndex);
      if UniqueIds(before) {
        MoveTaskKeepsUniqueIds(before, fromIndex, toIndex);
      }
      SaveProjectData();
    }

    /** `archiveTask(task)`: a no-op, without saving, when no active task has `task.id`. */
    method ArchiveTask(task: TaskItem)
      modifies this`tasks, this`archived, this`persisted
      ensures Data() == TaskStore.ArchiveTask(old(Data()), task)
      ensures HasId(old(tasks), task.id) ==> InSync() && SavedOver(old(persisted))
      ensures !HasId(old(tasks), task.id) ==> persisted == old(persisted)
      ensures UniqueIds(old(Data())) ==> UniqueIds(Data())
    {
      if UniqueIds(Data()) {
        ArchiveTaskKeepsUniqueIds(Data(), task);
      }
      var index := FindIndex(tasks, task.id);
      if index != -1 {
        tasks := RemoveAt(tasks, index);
        archived := archived + [task];
        SaveProjectData();
      }
    }

    /** `unarchiveTask(task)`: the mirror of `ArchiveTask`. */
    method UnarchiveTask(task: TaskItem)
      modifies this`tasks, this`archived, this`persisted
      ensures Data() == TaskStore.UnarchiveTask(old(Data()), task)
      ensures HasId(old(archived), task.id) ==> InSync() && SavedOver(old(persisted))
      ensures !HasId(old(archived), task.id) ==> persisted == old(persisted)
      ensures UniqueIds(old(Data())) ==> UniqueIds(Data())
    {
      if UniqueIds(Data()) {
        UnarchiveTaskKeepsUniqueIds(Data(), task);
      }
      var index := FindIndex(archived, task.id);
      if index != -1 {
        archived := RemoveAt(archived, index);
        tasks := tasks + [task];
        SaveProjectData();
      }
    }

    /** `deleteTask(task, isArchived)`: removes from the chosen sequence only. */
    method DeleteTask(task: TaskItem, isArchived: bool)
      modifies this`tasks, this`archived, this`persisted
      ensures Data() == TaskStore.DeleteTask(old(Data()), task, isArchived)
      ensures HasId(if isArchived then old(archived) else old(tasks), task.id) ==>
        InSync() && SavedOver(old(persisted))
      ensures !HasId(if isArchived then old(archived) else old(tasks), task.id) ==>
        persisted == old(persisted)
      ensures UniqueIds(old(Data())) ==> UniqueIds(Data())
    {
      if UniqueIds(Data()) {
        DeleteTaskKeepsUniqueIds(Data(), task, isArchived);
      }
      if isArchived {
        var index := FindIndex(archived, task.id);
        if index != -1 {
          archived := RemoveAt(archived, index);
          SaveProjectData();
        }
      } else {
        var index := FindIndex(tasks, task.id);
        if index != -1 {
          tasks := RemoveAt(tasks, index);
          SaveProjectData();
        }
      }
    }
  }

  /**
   * A session with one project file: add a task, archive it, unarchive it.
   * Only the effects promised by the operations' contracts are used.
   */
  method AddArchiveUnarchiveSession(path: string, id: string)
  {
    var view := new ProjectOrganizerView();
    view.SelectProjectFile(path, None);
    var outcome := view.AddTask("Write intro", "notes/intro.md", id);
    var task := TaskItem(id, "Write intro", "notes/intro.md");
    assert outcome == Added(task);
    assert view.tasks == [task] && view.archived == [];
    assert view.tasks[0].id == id;
    view.ArchiveTask(task);
    assert view.tasks == [] && view.archived == [task];
    assert view.archived[0].id == id;
    view.UnarchiveTask(task);
    assert view.tasks == [task] && view.archived == [];
    assert view.persisted[path] == ProjectData([task], []);
  }
}
