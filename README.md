# py-usvfs control plane in Dafny

A model of the Python wrapper around the usvfs userspace virtual filesystem library (`python-module/usvfs/usvfs_wrapper.py`). It covers three parts of the wrapper:

- **Link rules.** `_VirtualLink`, `VirtualFile` and `VirtualDirectory` each hold:
  - a real path and a virtual path, both made absolute when the rule is built;
  - an `is_directory` marker;
  - a `link_flags` bitset. Four boolean properties read and write one bit each: `link_fail_if_exists`, `redirect_create`, and, on directory rules only, `link_recursively` and `monitor_changes`.
- **`Mapping`.** A collection of rules, kept in two lists in insertion order: one for directory rules, one for file rules.
- **`UserspaceVFS`.** A named session with the native library:
  - A registry of instance names that only ever grows. In Python it is one list shared by the whole class; in the model it is an object that every constructor call is given.
  - An initialized flag, switched by `initialize` and `close`.
  - An "active instance" test: a prefix match against the name the library reports.
  - Reconnect-on-demand in `_ensure_active_instance`.
  - `set_mapping`, which clears the library's rules and links the directory rules, then the file rules, stopping at the first rejected link.
  - Thin methods that forward to the library after ensure-active.

The native library is an object, `Driver.Usvfs`:
- Each call appends a `Command` to a ghost `trace`, together with the library's answer.
- Every answer is unconstrained: a boolean, the current name, or a process list.

The session methods are specified by the exact trace they produce, as a function of those answers. Python exceptions become `Outcome`/`Result` values carrying an `Errors.Error`.

Files:
- `wrappers.dfy`: `Outcome` and `Result`.
- `errors.dfy`: one error per exception the wrapper raises.
- `flags.dfy`: the flag masks and the algebra of reading and writing one bit.
- `driver.dfy`: the library's parameter block, the commands, and the tracing library object.
- `links.dfy`: the link-rule class.
- `mapping.dfy`: `Mapping` and the order-preserving partition that specifies it.
- `session.dfy`: `UserspaceVFS`, its name registry, and the trace specifications of ensure-active and `set_mapping`.

About the flag masks: the header that defines their values is not part of this model. The model assumes they are four distinct single bits, 0x1, 0x2, 0x4 and 0x8. `LinkFlags.MasksAreDistinctBits` states this assumption. The lemmas about the flags use the mask values only through it, so they hold for any four distinct single bits.

As written, the `is_directory` setter tests the rule against `type(_VirtualLink)`, which is the metaclass `type`. No rule is an instance of it, so the setter raises `AttributeError` on every rule, the base class included. The model follows the code, so `is_directory` never changes after construction.

## Model

| member | source | states |
|---|---|---|
| LinkFlags.MasksAreDistinctBits | python-extension/py-usvfs-extension.cpp:226-229 | the four exported masks are non-zero single bits and any two different ones share no bit (the modelling assumption about their values) |
| LinkFlags.IsSet | python-module/usvfs/usvfs_wrapper.py:57 | the getter's bit test holds, for each of the four masks, exactly when the mask's bit is present in the bitset; the same test serves the getters at lines 94, 198 and 233 |
| LinkFlags.Assign | python-module/usvfs/usvfs_wrapper.py:67-70 | after a flag is written with a value, its getter returns that value and every bit outside its mask is unchanged |
| LinkFlags.AssignKeepsOtherFlags | python-module/usvfs/usvfs_wrapper.py:57-70 | writing one flag does not change what any other flag's getter returns |
| LinkFlags.AssignCurrentValue | python-module/usvfs/usvfs_wrapper.py:64-65 | writing a flag its current value gives back the same bitset, bit for bit, which is why the setter's early return is harmless |
| LinkFlags.OrIsAssignTrue | python-module/usvfs/usvfs_wrapper.py:67-68 | the setter's bitwise or-assignment of the mask is the write of true |
| LinkFlags.AndNotIsAssignFalse | python-module/usvfs/usvfs_wrapper.py:69-70 | the setter's and-assignment of the inverted mask is the write of false |
| LinkFlags.DirectoryDefaults | python-module/usvfs/usvfs_wrapper.py:172-177 | setting `link_recursively` on the empty bitset gives exactly the recursive mask, so every other flag reads false |
| LinkFlags.FileDefaults | python-module/usvfs/usvfs_wrapper.py:33-37 | on the default bitset 0 every flag reads false |
| Links.VirtualLink.Base | python-module/usvfs/usvfs_wrapper.py:33-37 | the base rule stores the absolute form of both paths, the given `is_directory` and the given flags |
| Links.VirtualLink.File | python-module/usvfs/usvfs_wrapper.py:149-152 | a file rule is not a directory, has flags 0 and stores the absolute form of both paths |
| Links.VirtualLink.Directory | python-module/usvfs/usvfs_wrapper.py:172-177 | a directory rule is a directory and its flags are exactly the recursive mask, set through the property setter; both paths are stored in absolute form |
| Links.VirtualLink.Flag | python-module/usvfs/usvfs_wrapper.py:57 | a rule's flag property reads true exactly when its mask's bit is present in `link_flags` (likewise lines 94, 198 and 233) |
| Links.VirtualLink.SetFlag | python-module/usvfs/usvfs_wrapper.py:59-70 | a non-bool raises `TypeError` with the flags untouched; a bool writes the flag (the getter then returns it, other bits unchanged); a value equal to the current one leaves the flags identical; the same setter serves the properties at lines 96-107, 200-211 and 235-246 |
| Links.VirtualLink.SetIsDirectory | python-module/usvfs/usvfs_wrapper.py:122-131 | the setter raises `AttributeError` for every value, so `is_directory` is never reassigned |
| Mappings.PartitionAppend | python-module/usvfs/usvfs_wrapper.py:267-270 | adding a rule appends it to the end of its own side of the partition and leaves the other side as it was |
| Mappings.PartitionSplits | python-module/usvfs/usvfs_wrapper.py:259-270 | the directory side holds only directory rules, the file side only file rules, and together they hold every added rule exactly as often as it was added |
| Mappings.Mapping.constructor | python-module/usvfs/usvfs_wrapper.py:255-257 | a new mapping has no rules on either side |
| Mappings.Mapping.Link | python-module/usvfs/usvfs_wrapper.py:259-270 | the rule is appended to the directory list if it is a directory and to the file list otherwise; the other list is unchanged; both lists stay the in-order partition of every rule added |
| Mappings.Mapping.Directories | python-module/usvfs/usvfs_wrapper.py:272-281 | yields the directory rules in insertion order, and the same ones on every call |
| Mappings.Mapping.Files | python-module/usvfs/usvfs_wrapper.py:283-292 | yields the file rules in insertion order, and the same ones on every call |
| Mappings.LinkOrderExample | python-module/usvfs/usvfs_wrapper.py:259-292 | linking a directory, a file and a directory yields the two directories in order and the file, and a second iteration of each yields the same lists |
| Session.NameRegistry.constructor | python-module/usvfs/usvfs_wrapper.py:322 | the class-wide name list starts empty |
| Session.UserspaceVFS.New | python-module/usvfs/usvfs_wrapper.py:325-341 | a name already reserved raises with nothing changed; otherwise the name is appended first, and a name over 64 characters then raises while staying reserved; otherwise the parameter block is initialized from all five arguments and the new instance is fresh and uninitialized |
| Session.ReservedNamesExample | python-module/usvfs/usvfs_wrapper.py:328-334 | a second instance with a name in use is refused, still refused after the first is initialized and closed, and a name refused for its length is refused again as a conflict |
| Session.UserspaceVFS.Init | python-module/usvfs/usvfs_wrapper.py:336-341 | a constructed instance keeps the registry, the library and the initialized parameter block, and starts uninitialized |
| Session.UserspaceVFS.InstanceName | python-module/usvfs/usvfs_wrapper.py:530-540 | `instance_name` is never over 64 characters, because the parameter block's type carries the constructor's length check; `New` ensures it equals the name the instance was created with |
| Session.UserspaceVFS.Initialize | python-module/usvfs/usvfs_wrapper.py:354-370 | when already initialized it raises with no library call; otherwise it starts logging, then asks the library to create the instance, and is initialized exactly when that succeeded, raising otherwise |
| Session.UserspaceVFS.Close | python-module/usvfs/usvfs_wrapper.py:372-382 | when not initialized it raises with no library call; otherwise it disconnects; afterwards the instance is not initialized |
| Session.ReopenExample | python-module/usvfs/usvfs_wrapper.py:372-397 | after `close`, the instance is inactive with no library call, `initialize` does not raise the already-initialized error, and the name registry is unchanged |
| Session.StartsWith | python-module/usvfs/usvfs_wrapper.py:397 | `s.startswith(p)` holds exactly when `p` is no longer than `s` and equals the first as many characters of `s` |
| Session.UserspaceVFS.IsActiveInstance | python-module/usvfs/usvfs_wrapper.py:384-397 | uninitialized: false with no library call; initialized: one name query, and true exactly when the reported name starts with the instance name |
| Session.UserspaceVFS.EnsureActiveInstance | python-module/usvfs/usvfs_wrapper.py:347-351 | the calls are the active-instance query, then `ConnectVFS` only if not active; it raises the connection error exactly when that reconnect failed |
| Session.EnsureActiveConnectsOnlyWhenInactive | python-module/usvfs/usvfs_wrapper.py:347-351 | a reconnect is issued if and only if the instance is not active, and ensure-active raises if and only if a reconnect was issued and failed |
| Session.UserspaceVFS.SetMapping | python-module/usvfs/usvfs_wrapper.py:399-433 | a non-`Mapping` raises `TypeError`, then an uninitialized instance raises, both with no library call; then ensure-active, whose failure stops everything; then clear, the directory loop over the directory rules and the file loop over the file rules, with the outcome of the first loop that raised |
| Session.UserspaceVFS.ApplyMapping | python-module/usvfs/usvfs_wrapper.py:415-433 | the trace of `set_mapping` after its two checks: ensure-active, then (if it passed) clear followed by the two loops' calls |
| Session.UserspaceVFS.ReplaceRules | python-module/usvfs/usvfs_wrapper.py:417-433 | clear comes first, then the directory loop; the file loop runs only if the directory loop did not raise, and the outcome is that of the loop that ran last |
| Session.UserspaceVFS.LinkEach | python-module/usvfs/usvfs_wrapper.py:421-433 | one link call per rule in order, with that rule's paths and flags, each accepted until one is rejected; a rejection raises naming that rule and ends the loop |
| Session.LinkLoopStopsAtFirstFailure | python-module/usvfs/usvfs_wrapper.py:421-433 | a loop completes if and only if every rule was linked and accepted; when it raises, every earlier rule was linked and accepted (nothing is undone) and the error carries the rejected rule's paths and flags |
| Session.DirectoriesBeforeFiles | python-module/usvfs/usvfs_wrapper.py:417-433 | for every outcome of the two loops, including a raising directory loop, no file link in what `set_mapping` sends after ensure-active ever precedes a directory link, whatever order the rules were added in |
| Session.Snapshots | python-module/usvfs/usvfs_wrapper.py:422 | the values sent for a list of rules are, position by position, each rule's paths and current flags |
| Session.UserspaceVFS.ClearMapping | python-module/usvfs/usvfs_wrapper.py:435-447 | when not initialized it raises with no library call; otherwise ensure-active, then the clear only if ensure-active passed |
| Session.UserspaceVFS.BlacklistExecutable | python-module/usvfs/usvfs_wrapper.py:449-459 | ensure-active (no initialization check), then the blacklist call only if ensure-active passed |
| Session.UserspaceVFS.ClearBlacklist | python-module/usvfs/usvfs_wrapper.py:461-467 | ensure-active, then the clear-blacklist call only if ensure-active passed |
| Session.UserspaceVFS.ForceLoadLib | python-module/usvfs/usvfs_wrapper.py:469-485 | the library path is made absolute; ensure-active; then the force-load call with the absolute path only if ensure-active passed |
| Session.UserspaceVFS.ClearForceLoads | python-module/usvfs/usvfs_wrapper.py:487-493 | ensure-active, then the clear-force-loads call only if ensure-active passed |
| Session.UserspaceVFS.RunProcess | python-module/usvfs/usvfs_wrapper.py:495-516 | the working directory is made absolute; ensure-active; then the hooked process start with the absolute directory; a failed start raises the launch error |
| Session.UserspaceVFS.GetActiveProcesses | python-module/usvfs/usvfs_wrapper.py:518-528 | ensure-active; if it raised, that error and no further call; otherwise the process-list call and exactly the list the library returned |

## Left out

- `python-extension/py-usvfs-extension.cpp` is not modelled beyond the names it exports. It is glue over the native usvfs library and Win32 process calls, whose behaviour is defined elsewhere. Two of its details sit below the level of the trace and are not captured: the trimming of the name buffer, and how it counts the list of processes.
- `setup.py` (packaging) and `python-module/usvfs/__init__.py` (re-exports) are not part of this model.
- What the library does with links, blacklists, force-loads and processes is not modelled. Its answers are unconstrained and only the calls are recorded.
- `os.path.abspath` has no path semantics here. It is a function parameter (`abspath`) that the constructors, `ForceLoadLib` and `RunProcess` apply.
- Session.UserspaceVFS.RunProcess: the `os.getcwd()` default for `working_directory`, evaluated once when the module is loaded, is not modelled, so callers always pass a directory.
- The shared-memory names inside `USVFSParameters`, which the library derives from the instance name, are not modelled. The parameter block keeps the five values the wrapper passes in.
- `__del__`: disconnecting on garbage collection happens at a time the program does not control, so it is not modelled.
- Links.VirtualLink.SetFlag: `link_flags` is a 32-bit bitset rather than a Python integer. The native side takes an unsigned 32-bit value, and a base rule built with a value that does not fit is outside the model.
- Links.VirtualLink.SetFlag: the directory-only properties can be used only on `VirtualDirectory` rules. On other rules Python would create an unrelated plain attribute; that attribute is not modelled.
- Links.VirtualLink.Base: `real_path` and `virtual_path` are fixed after construction. In Python they are plain attributes that a caller could reassign, but nothing in the wrapper does.
- Mappings.Mapping.Directories: the generators of `directories()` and `files()` are modelled as the list they yield, not as lazy iterators. Only the wrapper drives them, and nothing changes a rule between steps.
- Session.UserspaceVFS.ApplyMapping: the rules are read before ensure-active and the clear, rather than lazily during the loops. The library cannot change a rule, so the values sent are the same.
- Session.UserspaceVFS.SetMapping: an argument that is not a `Mapping` is represented by `null`.
- Session.UserspaceVFS.New: the 64-character limit counts Unicode scalar values, as Python's `len` does. Python strings can also hold lone surrogates, which a Dafny `char` cannot, so such names are outside the model.
- Session.UserspaceVFS.New: names are unique only among instances built with the same `NameRegistry`. Python has one class-wide `_instance_names` list, so callers must pass the same registry to every call; two registries would each accept the same name.
