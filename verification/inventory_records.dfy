/**
 * The inventory log demo: a generic logger that appends entries, hands out
 * snapshots, and saves its whole log to a file or replaces it with what a
 * file holds.
 *
 * The file is a value: missing, unreadable (reading or deserialising
 * throws), or holding a deserialised list that may be JSON null.
 */
module InventoryRecords {
  import opened Wrappers

  /** A clock value (DateTime.Now); it plays no part in the logic. */
  type Date = int

  datatype InventoryItem = InventoryItem(id: int, name: string, quantity: int, dateAdded: Date)

  /** What the file at the logger's path holds when LoadFromFile reads it. */
  datatype FileState<T> =
    | Absent
    | Unreadable
    | Holds(list: Option<seq<T>>)

  /**
   * How SaveToFile ends: the write completes; an exception is thrown before
   * the StreamWriter opens the file (serialising, or opening itself); or one
   * is thrown after opening, by the write or by the flush on dispose. Every
   * exception is caught and reported.
   */
  datatype SaveOutcome = Written | FailedBeforeOpen | FailedAfterOpen

  /** The log after LoadFromFile: only a successful read replaces it, and null gives an empty log. */
  function LogAfterLoad<T>(log: seq<T>, file: FileState<T>): (r: seq<T>)
    ensures !file.Holds? ==> r == log
    ensures file.Holds? ==> r == file.list.GetOr([])
  {
    match file
    case Absent => log
    case Unreadable => log
    case Holds(list) => list.GetOr([])
  }

  /**
   * The file after SaveToFile. Opening the StreamWriter truncates the file,
   * so a failure after that point leaves an empty file or a prefix of the
   * JSON text, neither of which deserialises; a failure before it leaves
   * the file as it was.
   */
  function FileAfterSave<T>(log: seq<T>, file: FileState<T>, outcome: SaveOutcome): (r: FileState<T>)
    ensures outcome == Written ==> r.Holds? && LogAfterLoad([], r) == log
    ensures outcome == FailedBeforeOpen ==> r == file
    ensures outcome == FailedAfterOpen ==> r == Unreadable
  {
    match outcome
    case Written => Holds(Some(log))
    case FailedBeforeOpen => file
    case FailedAfterOpen => Unreadable
  }

  /**
   * A load that reads the file replaces the log rather than appending to it:
   * the log before the load plays no part, and a null list gives an empty log.
   */
  lemma LoadReplaces<T>(log: seq<T>, other: seq<T>, file: FileState<T>)
    requires file.Holds?
    ensures LogAfterLoad(log, file) == LogAfterLoad(other, file)
    ensures file.list.None? ==> LogAfterLoad(log, file) == []
  {
  }

  /** A missing file or a failed read keeps the log as it was. */
  lemma FailedLoadKeeps<T>(log: seq<T>, file: FileState<T>)
    requires !file.Holds?
    ensures LogAfterLoad(log, file) == log
  {
  }

  /** Saving and then loading, into any logger, gives back the saved log. */
  lemma SaveThenLoad<T>(saved: seq<T>, other: seq<T>, file: FileState<T>)
    ensures LogAfterLoad(other, FileAfterSave(saved, file, Written)) == saved
  {
  }

  /** A save that fails before the file is opened leaves the file, and so what a later load reads, as it was. */
  lemma FailedSaveThenLoad<T>(saved: seq<T>, other: seq<T>, file: FileState<T>)
    ensures LogAfterLoad(other, FileAfterSave(saved, file, FailedBeforeOpen)) == LogAfterLoad(other, file)
  {
  }

  /**
   * A save that fails after the file is opened destroys what the file held:
   * a later load keeps the loader's own log, even when the file held a list before.
   */
  lemma TruncatedSaveThenLoad<T>(saved: seq<T>, other: seq<T>, file: FileState<T>)
    ensures LogAfterLoad(other, FileAfterSave(saved, file, FailedAfterOpen)) == other
    ensures file.Holds? && file.list.Some? && file.list.value != other ==>
              LogAfterLoad(other, FileAfterSave(saved, file, FailedAfterOpen)) != LogAfterLoad(other, file)
  {
  }

  /** InventoryLogger<T>: the log and the path it is saved to. */
  class InventoryLogger<T> {
    var log: seq<T>
    const filePath: string

    constructor (filePath: string)
      ensures log == [] && this.filePath == filePath
    {
      log := [];
      this.filePath := filePath;
    }

    /** Add: append at the end; there is no check for a repeated id. */
    method Add(item: T)
      modifies this`log
      ensures log == old(log) + [item]
    {
      log := log + [item];
    }

    /** GetAll: a copy of the log; being a value, later adds do not reach it. */
    method GetAll() returns (all: seq<T>)
      ensures all == log
    {
      all := log;
    }

    /**
     * SaveToFile: returns the file afterwards, given how the attempt ends.
     * Having no modifies clause, it never changes the log.
     */
    method SaveToFile(file: FileState<T>, outcome: SaveOutcome) returns (saved: FileState<T>)
      ensures saved == FileAfterSave(log, file, outcome)
    {
      match outcome {
        case Written =>
          saved := Holds(Some(log));
        case FailedBeforeOpen =>
          saved := file;
        case FailedAfterOpen =>
          saved := Unreadable;
      }
    }

    /** LoadFromFile: the log is assigned only after a successful read. */
    method LoadFromFile(file: FileState<T>)
      modifies this`log
      ensures log == LogAfterLoad(old(log), file)
      ensures !file.Holds? ==> log == old(log)
    {
      match file {
        case Absent =>
        case Unreadable =>
        case Holds(list) =>
          log := list.GetOr([]);
      }
    }
  }

  /**
   * The demo run, when the write succeeds: seed five items, save them over
   * whatever the file held, and load them into a new logger, which then
   * holds the five items in order. `now` stands for the DateTime.Now readings.
   */
  method SaveAndReload(filePath: string, file: FileState<InventoryItem>, now: Date)
    returns (reloaded: InventoryLogger<InventoryItem>)
    ensures fresh(reloaded)
    ensures reloaded.log == [
      InventoryItem(1111, "Laptop", 5, now),
      InventoryItem(1112, "Television", 10, now),
      InventoryItem(1103, "PS5 Console", 15, now),
      InventoryItem(1114, "Monitor", 19, now),
      InventoryItem(1106, "Printer", 3, now)]
  {
    var logger := new InventoryLogger<InventoryItem>(filePath);
    logger.Add(InventoryItem(1111, "Laptop", 5, now));
    logger.Add(InventoryItem(1112, "Television", 10, now));
    logger.Add(InventoryItem(1103, "PS5 Console", 15, now));
    logger.Add(InventoryItem(1114, "Monitor", 19, now));
    logger.Add(InventoryItem(1106, "Printer", 3, now));
    var saved := logger.SaveToFile(file, Written);

    reloaded := new InventoryLogger<InventoryItem>(filePath);
    reloaded.LoadFromFile(saved);
  }
}
