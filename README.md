# Shell display path of a FAT32 shell, in Dafny

The shell keeps the directory the user has navigated to in a global string,
`current_path`. This string is a NUL-terminated buffer of `MAX_PATH_LEN` = 256
characters, such as `/` or `/FOLDER1/FOLDER2/`. `init_path` resets it to `/`.
`update_path(dirname, is_entering)` has three cases:

- `..` drops the last component.
- `.` changes nothing.
- Any other name is appended as `name/`, but only when the result fits.

The project has two modules:

- `PathSpec` (path_spec.dfy) says on plain character sequences what each case
  yields: `Parent`, `Enter` and `Updated`. It also proves the properties of
  these functions, including the round trip "enter a directory, then `..`".
- `Shell` (shell.dfy) holds the class `CurrentPath`. It owns the 256-character
  array and a ghost `len` that equals `strlen` of the buffer. Its methods do the
  C code's writes in place: index stores of `'\0'`, a backward scan for `/`,
  and `strcat` copies. Each method is proved to leave exactly the string that
  `PathSpec` gives for the old one.

The object invariant `Valid()` says:

- the buffer has 256 characters;
- a NUL sits at `len`, and no NUL comes before it;
- `len` is between 1 and 255;
- the first character is `/`.

The C code relies on this without checking it. `update_path` reads
`current_path[strlen - 1]`, which is out of bounds on an empty string. A
trailing `/` is not part of the invariant, because `update_path` tests for one.
`Updated` proves instead that a trailing `/` is kept.

## Model

| member | source | states |
|---|---|---|
| Shell.CurrentPath.constructor | src/shell.c:3-4 | The global's initializer gives a valid 256-character buffer holding `"/"`, zero in every other position. |
| Shell.CurrentPath.InitPath | src/shell.c:14-16 | `init_path` sets the path to exactly `"/"` and leaves the buffer from index 2 on unchanged. |
| Shell.CurrentPath.Length | src/shell.c:23 | `strlen(current_path)` returns the length of the stored path, found by scanning for the first NUL. |
| Shell.CurrentPath.Append | src/shell.c:42-45 | `strcat` onto the path, when the result fits, gives the old path followed by the appended characters, and keeps the buffer valid. |
| Shell.CurrentPath.UpdatePath | src/shell.c:18-49 | `update_path` keeps the buffer valid and leaves the path `Updated(old path, dirname, is_entering)`. |
| Shell.CurrentPath.GoUp | src/shell.c:21-37 | The `..` branch: its in-place NUL writes and backward scan leave exactly `Parent(old path)`. |
| Shell.CurrentPath.GoDown | src/shell.c:38-46 | The branch for any other name: the guarded `strcat`s leave exactly `Enter(old path, dirname)`. |
| PathSpec.LastSlash | src/shell.c:31-34 | On a string that starts with `/`, the backward scan stops on a `/` with no `/` after it. |
| PathSpec.Parent | src/shell.c:21-37 | `..` leaves the root `/` unchanged. On any longer path it gives a strictly shorter prefix that still starts and ends with `/`. No `/` is dropped except a trailing one, so exactly the last component goes. |
| PathSpec.ParentUnique | src/shell.c:25-36 | Any proper prefix that ends at a `/`, with no other `/` after it except a trailing one, is the `..` result. This is an independent characterisation of `Parent`. |
| PathSpec.ParentFixedOnlyAtRoot | src/shell.c:21-37 | `..` leaves the path unchanged if and only if the path is `"/"`. |
| PathSpec.Enter | src/shell.c:40-46 | When `len(path) + len(name) + 2 < 256`, the result is the path, plus `/` if it lacks one, plus `name/`. Otherwise the path is unchanged. The result always extends the old path and fits the buffer. |
| PathSpec.Updated | src/shell.c:18-49 | Covers every case of `update_path`. When `is_entering` is false, or the name is `.`, nothing changes. `..` gives `Parent` and any other name gives `Enter`. The result always fits the buffer and starts with `/`, and a trailing `/` is kept. |
| PathSpec.EnterThenLeave | src/shell.c:21-46 | Start from a path ending in `/`. Enter a name that is not `.` or `..`, contains no `/` and fits, then enter `..`. The original path comes back. |

## Left out

- `print_image_name` and `print_path` (src/shell.c:6-12) only write to stdout.
- src/main.c is left out. It opens the image, hex-dumps the boot sector and runs the read–tokenise loop. This is I/O, and the lexer it calls is not part of this model.
- src/file_ops.c (`read_boot_sector`) is left out: it only reads 512 bytes from a `FILE*`.
- src/commands.c (`info`) is left out: it only prints boot-sector fields.
- include/commands.h, include/file_ops.h, include/common.h and include/shell.h declare the FAT32 operations (boot-sector parsing, `ls`, `cd`, `mkdir`, `open`, `read`, `write`, `mv`, `rm`) and their structs. They have no bodies, so there is no behaviour to model.
- `dirname` is taken as the characters of a C string (no NUL inside). A NULL pointer argument is not modelled.
- The guard adds lengths with unbounded integers. C's `size_t` addition could wrap only for a name near `SIZE_MAX` characters long, which is not modelled.
- The buffer is the process-wide global in C. Here it is one `CurrentPath` object. Aliasing by other code that writes `current_path` directly is not modelled.
- Buffer bytes past the terminator are left unconstrained, except where `InitPath` and the constructor say what they hold.
