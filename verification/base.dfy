/** Shared vocabulary of the model: bytes, optional values, results and the
    error values the Go code builds with fmt.Errorf / errors.Join. The text of
    a Go error is not modelled; its kind and the wrapping stage are. */
module Base {

  newtype byte = x: int | 0 <= x < 256

  /** The newline byte '\n'. */
  const Newline: byte := 10

  datatype Option<T> = None | Some(value: T)

  datatype Result<T> = Ok(value: T) | Err(error: Error)

  /** The five stages of TdxSetupManager.Setup, in the order they run. */
  datatype Stage =
    | FindDiskStage        // "failed to find disk"
    | FindKeyStage         // "failed to find key"
    | WriteKeyStage        // "failed to write key"
    | PassphraseStage      // "failed to wait for passphrase"
    | SetPassphraseStage   // "failed to set passphrase"

  datatype Error =
    // pkg/disk/mounting.go
    | AlreadySetup                           // "encrypted disk already setup"
    | KeyNotSet                              // "SSH key not set. ..."
    | FormatFailed                           // "error formatting disk"
    | OpenFailed                             // "error opening LUKS device"
    | MkfsFailed                             // "error creating filesystem"
    | MountFailed                            // "error mounting filesystem"
    | CloseFailed                            // "error closing LUKS device"
    | UmountFailed                           // "error unmounting filesystem"
    | ReadKeyFailed(cleanup: Option<Error>)  // "error reading SSH key file", joined with CleanupMount's error
    | ImportFailed(cleanup: Option<Error>)   // "error importing token to LUKS header", joined likewise
    // pkg/disk/find.go
    | GlobFailed                             // "failed to find disk by path"
    | NoDiskByPath(path: string)             // "no disk found by path: <path>"
    | PartitionsUnreadable                   // os.Open("/proc/partitions") failed
    | ScanFailed                             // scanner.Err() != nil
    | NoScsiDisk                             // "no SCSI disk found"
    // pkg/tdxsetup/keys.go
    | ContextCancelled                       // ctx.Err()
    | ServerFailed                           // "server error"
    | ShutdownFailed                         // "server shutdown error"
    // pkg/tdxsetup/passphrase.go
    | EntropyFailed                          // crypto/rand error
    | MkfifoFailed                           // "failed to create named pipe"
    | OpenPipeFailed                         // "failed to open named pipe"
    | ReadPipeFailed                         // "failed to read from named pipe"
    // pkg/tdxsetup/setup.go
    | TokenExportFailed                      // "failed to export LUKS token"
    | TokenParseFailed                       // "failed to parse token JSON"
    | NoMetadata                             // "no metadata found in token"
    | KeyWaitFailed(cause: Error)            // "failed to wait for key"
    | OpenAuthorizedKeysFailed               // "error opening authorized_keys"
    | WriteAuthorizedKeysFailed              // "error writing to authorized_keys"
    | WriteKeyFileFailed                     // "error writing key file"
    | InStage(stage: Stage, cause: Error)    // Setup's stage label around the first error
    // cmd/main.go
    | UnknownKeyStrategy(name: string)
    | UnknownPassphraseStrategy(name: string)
    | UnknownDiskStrategy(name: string)
}
