/** The records that pass between the detectors, the backup manager and the database. */
module Settings {
  import opened Wrappers
  import opened FileSystem

  /**
    One setting location: the dict with keys `type`, `path`, `description`
    and, when the detector that produced it sets them, `name` and `size`.
    The backup manager overwrites `size` (backup_manager.py:47).
   */
  datatype Setting = Setting(kind: string, path: Path, description: string, name: Option<string>, size: Option<nat>)

  /**
    The metadata dictionary handed to storage: the keys `create_backup` sets
    (backup_manager.py:112-117), and the `category` and `type` keys that
    `upload_backup` reads when a caller supplies them (local_storage.py:49-50),
    `None` when absent.
   */
  datatype Metadata = Metadata(timestamp: string, settings: seq<Setting>, appName: string, totalSize: nat,
                               category: Option<string>, appType: Option<string>)
}
