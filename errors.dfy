/** The exceptions the wrapper raises, as values. */
module Errors {

  datatype Error =
    /** `TypeError`: a flag setter got a non-bool, or `set_mapping` got something other than a `Mapping`. */
    | TypeError
    /** `AttributeError`: an attempt to assign `is_directory`. */
    | AttributeError
    /** `USVFSException`: the instance name is already in the class-level registry. */
    | NameConflict
    /** `USVFSException`: the instance name exceeds 64 characters. */
    | NameTooLong
    /** `USVFSException`: `initialize` on an initialized instance. */
    | AlreadyInitialized
    /** `USVFSException`: `close`, `set_mapping` or `clear_mapping` on an uninitialized instance. */
    | NotInitialized
    /** `USVFSException`: the driver's `CreateVFS` reported failure. */
    | InitializationFailed
    /** `USVFSException`: the driver's `ConnectVFS` reported failure. */
    | ConnectionFailed
    /** `USVFSException`: a directory rule was rejected; the message carries its paths and flags. */
    | LinkDirectoryFailed(realPath: string, virtualPath: string, flags: bv32)
    /** `USVFSException`: a file rule was rejected; the message carries its paths and flags. */
    | LinkFileFailed(realPath: string, virtualPath: string, flags: bv32)
    /** `USVFSException`: the driver's `CreateProcessHooked` reported failure. */
    | ProcessLaunchFailed
}
