# The game's memory, bit utilities, string helpers, BMP loader and input logic, in Dafny

This project models the platform-independent core of a small C++ game engine, together with the
small pieces of logic inside its Linux and Win32 platform layers:

- **Memory partitions** (`memory.dfy`, module `Memory`). `InitializePartition` carves a partition
  off the front of the global hunk with `ConsumeSize` and zero-fills it. `PushSize` is a
  bump allocator whose fit test is strict. `ResetPartition` rewinds the marker of the partition
  and of every partition on its `NextPiece` chain. Partitions and the hunk are classes updated in
  place over a byte array. There are also the `PushType`/`PushTypeArray` size macros and the
  block records the header declares.
- **Platform utilities** (`platform.dfy`, module `Platform`):
  - `Min`/`Max`, `SafeTruncate*`, `IsPow2`, `AlignPow2` and `Align4/8/16`;
  - the bit scans, the byte swaps and `FourCC`;
  - the `piece` and its `ConsumeSize`;
  - the ticket mutex's counters, run by one thread.
- **Byte and C-string helpers** (`misc.dfy`, module `Misc`): `CopyBytes`, `CopyString`,
  `CopyStringN` and `AreStringsEqual`, as loops over arrays and sequences.
- **The bitfield BMP loader** (`bmp.dfy`, module `Bmp`). `LoadImageBmp` works on the file's bytes:
  - it checks the header in the same order and with the same error codes;
  - it derives each channel shift from the lowest set bit of that channel's mask;
  - it repacks every pixel into 0xAARRGGBB, in a block pushed onto a partition.
- **Input** (`input.dfy`, module `Input`; `keymap.dfy`, module `KeyMap`):
  - button transitions, `IsNewlyPressed` and the end-of-frame clearing of `IsNew`;
  - the X keysym and Windows virtual-key tables;
  - the command-line search;
  - the split of the executable's path into a directory and a file name.

`wrappers.dfy` holds the `Option` type.

Numbers:
- Unsigned machine integers are natural numbers below their limits. `u8`, `u32` and `uptr` are
  below 2^8, 2^32 and 2^64. The model spells out wrap-around (`WrapAdd`, `WrapDec`).
- `&`, `~` and `|` on those numbers are functions defined bit by bit: `And`, `Not` and `Or`.
- The byte swaps and `FourCC` are written on bit-vectors (`bv16`, `bv32`).
- An address is a natural number indexing the one memory array; 0 is null.

Each operation is proved against a partner:
- a specification function: `PushedView`, `LeastSignificantBit`, `DecodedPixels`, `FirstMatchFrom`;
- or its inverse: the byte swaps, `EncodeU32`/`ReadU32`, `XKeySymOf`;
- or the set of inputs it accepts: `Win32TableKeys` and `Win32SwitchKeys` for the virtual-key map;
- or an invariant it keeps: `Bounded`, `ChainLinked`.

## Model

| member | source | states |
|---|---|---|
| Platform.Min | game_platform.h:122-125 | the result is at most both arguments and is one of them |
| Platform.Max | game_platform.h:126-129 | the result is at least both arguments and is one of them |
| Platform.SafeTruncateU64 | game_platform.h:168-172 | the result is below 2^32; it equals the value when the value fits; it is congruent to the value modulo 2^32 |
| Platform.SafeTruncateU32 | game_platform.h:173-177 | the same for the cast to 16 bits |
| Platform.SafeTruncateU16 | game_platform.h:178-182 | the same for the cast to 8 bits |
| Platform.IsPow2 | game_platform.h:191-194 | the test as written, with no contract of its own; `IsPow2Meaning` and `IsPow2ByLowestBit` state what it decides |
| Platform.IsPow2Meaning | game_platform.h:191-194 | `IsPow2` holds exactly for 0 and for 2^0 .. 2^63, so zero counts as a power of two |
| Platform.IsPow2ByLowestBit | game_platform.h:191-194 | on a non-zero value, the test compares the value with its lowest set bit |
| Platform.AlignPow2 | game_platform.h:197-201 | requires `IsPow2(Alignment)`, the source's assertion; it has no other contract of its own, and the four `AlignPow2*` lemmas below state its results |
| Platform.AlignPow2IsLeastMultiple | game_platform.h:197-201 | for a non-zero power of two and no overflow, the result is a multiple of the alignment, is at least the value and within one alignment of it, and is at most every multiple at or above the value |
| Platform.AlignPow2Idempotent | game_platform.h:197-201 | aligning an aligned value changes nothing |
| Platform.AlignPow2ClearsLow | game_platform.h:197-201 | at alignment 2^k, the result is Value + 2^k - 1 with its low k bits cleared |
| Platform.AlignPow2ByZero | game_platform.h:197-201 | alignment 0 passes the power-of-two assertion and gives 0 |
| Platform.Align4 | game_platform.h:202 | the macro as written, with no contract of its own; `AlignFixedAreAlignPow2` states what it computes |
| Platform.Align8 | game_platform.h:203 | the macro as written, with no contract of its own; `AlignFixedAreAlignPow2` states what it computes |
| Platform.Align16 | game_platform.h:204 | the macro as written, with no contract of its own; `AlignFixedAreAlignPow2` states what it computes |
| Platform.AlignFixedAreAlignPow2 | game_platform.h:202-204 | `Align4`, `Align8` and `Align16` are `AlignPow2` at 4, 8 and 16, so `AlignPow2IsLeastMultiple` and `AlignPow2Idempotent` hold of them |
| Platform.LeastSignificantBitCorrect | game_platform.h:213-231 | the upward scan finds a bit exactly when the value is non-zero; the bit it finds is the lowest set bit; Index is 0 when nothing is found |
| Platform.FindLeastSignificantBit | game_platform.h:213-231 | the loop returns the scan's result: IsFound iff the value is non-zero, and Index is the lowest set bit |
| Platform.FindMostSignificantBitAsWritten | game_platform.h:232-250 | the GNUC loop as written completes only on bit 31; every other value reaches an undefined shift by 32 |
| Platform.MostSignificantBitAsWrittenFails | game_platform.h:240 | when bit 31 is clear, the loop as written reaches the undefined shift, although a non-zero value has a highest set bit below 31 |
| Platform.MostSignificantBitCorrect | game_platform.h:232-250 | the downward scan finds a bit exactly when the value is non-zero, and the bit it finds is the highest set bit |
| Platform.FindMostSignificantBit | game_platform.h:232-250 | the loop counting down from bit 31 returns the highest set bit, found iff the value is non-zero |
| Platform.SwapEndianU32 | game_platform.h:274-285 | byte i of the result is byte 3 - i of the value |
| Platform.SwapEndianU32Involutive | game_platform.h:274-285 | swapping twice restores the value |
| Platform.SwapEndianU16AsWritten | game_platform.h:286-297 | the GNUC expression with logical `\|\|` yields only 0 or 1, and yields 0 only for 0 |
| Platform.SwapEndianU16AsWrittenCollapses | game_platform.h:295 | on 0x1234 the expression as written gives 1 where the byte swap gives 0x3412 |
| Platform.SwapEndianU16 | game_platform.h:286-297 | the intended swap: the low byte of the result is the value's high byte and the high byte is its low byte |
| Platform.SwapEndianU16Involutive | game_platform.h:286-297 | swapping twice restores the value |
| Platform.PromoteChar | game_platform.h:300 | a char promoted to int on a signed-char target: ASCII stays as it is; a byte at or above 0x80 is sign-extended |
| Platform.FourCC | game_platform.h:300 | requires the four characters the macro reads; it has no other contract of its own, and the two lemmas below state its layout |
| Platform.FourCCAscii | game_platform.h:300 | for ASCII characters, String[0] is in bits 24-31, String[1] in 16-23, String[2] in 8-15 and String[3] in 0-7 |
| Platform.FourCCHighLastChar | game_platform.h:300 | a last character at or above 0x80 sign-extends over the other three bytes |
| Platform.Piece.constructor | game_platform.h:253-256 | a piece holds the given Base and Size |
| Platform.Piece.ConsumeSize | game_platform.h:261-271 | requires n <= Size; returns the old Base; advances Base by n and shrinks Size by n, so Base + Size stays |
| Platform.AfterEnter | game_platform.h:339-347 | Serving stays; a caller that enters at once finds its own ticket, the new Ticket minus one, being served; a second Enter before the Leave would not get through |
| Platform.AfterLeave | game_platform.h:348-352 | Ticket stays; when the leaving thread held the last ticket drawn, the next Enter gets through at once |
| Platform.ZeroedMutexEntersAtOnce | game_platform.h:331-347 | a zero-initialised mutex lets the first Enter through at once |
| Platform.EnterLeavePairsBalanced | game_platform.h:333-352 | after n matched Enter/Leave pairs from a free mutex, Ticket == Serving again, Ticket having advanced by n modulo 2^64 |
| Platform.TicketMutex.constructor | game_platform.h:331-336 | a new mutex has both counters zero |
| Platform.TicketMutex.Enter | game_platform.h:339-347 | the counters become AfterEnter of the old ones, for a caller whose ticket is being served |
| Platform.TicketMutex.Leave | game_platform.h:348-352 | the counters become AfterLeave of the old ones |
| Memory.PushedView | game_memory.cpp:58-75 | a push keeps the partition's bounds (its marker stays inside its piece), and keeps Base and Size |
| Memory.PushContract | game_memory.cpp:67-69 | a non-zero request gets a non-null address exactly when `Size < Piece.Size - Marker`; the block then runs from the old marker to the new one; it lies in the piece with at least one byte left over; a refused push changes nothing |
| Memory.ExactRemainderRefused | game_memory.cpp:67 | a request for exactly the bytes left after the marker is refused |
| Memory.PushAll | game_memory.cpp:58-75 | a run of pushes yields one address per request and keeps the partition's bounds |
| Memory.PushAllWithin | game_memory.cpp:67-69 | each block of a run of pushes lies between the marker before the run and the marker after it |
| Memory.PushAllDisjoint | game_memory.cpp:67-69 | the blocks of a run of pushes never overlap, and each lies inside the piece |
| Memory.RewindContract | game_memory.cpp:42-55 | resetting twice equals resetting once; a reset keeps the bounds; the first push after it gets the start of the piece |
| Memory.CarveAdjacent | game_memory.cpp:16-23 | the carved partition is the next InitSize bytes of the hunk; the hunk keeps its end; two partitions carved in turn get adjacent, disjoint ranges |
| Memory.Hunk.constructor | game_memory.cpp:19 | the hunk is a piece over the memory array |
| Memory.Partition.constructor | game_memory.cpp:14 | a zero-initialised partition: null Base, no chain |
| Memory.InitializePartition | game_memory.cpp:11-39 | requires a non-zero InitSize and a null Base. It succeeds exactly when `InitSize < Hunk.Size`. On success the hunk and the partition are the carve, Marker is 0, MinBlockSize is stored, the chain is empty, the piece's bytes are 0 and no other byte changes. On failure nothing changes |
| Memory.PushSize | game_memory.cpp:58-75 | requires a non-zero Size. The address and the new partition are `PushedAddress`/`PushedView` of the old one, non-null exactly when the request fits; only the marker changes |
| Memory.ResetPartition | game_memory.cpp:42-55 | the marker of the partition and of every partition on its NextPiece chain is rewound; bases, sizes, links and bytes stay |
| Memory.PushTypeArraySizeAsWritten | game_memory.h:33 | the macro as it expands for a Count written `left + right`, with no contract of its own; `PushTypeArrayCountUnparenthesised` and `PushTypeArrayAgreesOnSingleTerm` state where it goes wrong and where not |
| Memory.PushTypeArraySize | game_memory.h:33 | with Count parenthesised, the request is a whole number of elements, exactly Count of them |
| Memory.PushTypeSize | game_memory.h:32 | `sizeof(Type)`, with no contract of its own; `PushTypeIsOneElement` relates it to `PushTypeArray` |
| Memory.PushTypeIsOneElement | game_memory.h:32-33 | `PushType` requests sizeof(Type), the request `PushTypeArray` makes for one element |
| Memory.PushTypeArrayCountUnparenthesised | game_memory.h:33 | as written, a count `1 + 1` of 4-byte elements requests 5 bytes instead of 8; `ConsumeTypeArray` at game_platform.h:260 expands its Count the same way |
| Memory.PushTypeArrayAgreesOnSingleTerm | game_memory.h:33 | as written and corrected agree when Count is a single term |
| Memory.BlockChain | game_memory.h:14-19 | the blocks reachable through PrevBlock, newest first, from the given block to the one with no older block |
| Misc.CStringLength | game_misc.h:25-32 | the index of the first terminator |
| Misc.CStringLengthOf | game_misc.h:25-32 | a terminator-free text followed by a terminator has the text's length, whatever follows |
| Misc.CopyBytes | game_misc.h:13-23 | requires a non-zero Size; Dest's first Size bytes become Src's; no other byte of Dest is written |
| Misc.CopyString | game_misc.h:25-32 | with Src pointing From characters into its array, Src's characters before its terminator are copied to the start of Dest; no terminator is written; Dest keeps the rest |
| Misc.CopyStringN | game_misc.h:34-46 | exactly MaxCount characters are copied, terminators included; MaxCount 0 writes nothing |
| Misc.StringsEqualFromMeaning | game_misc.h:48-66 | the loop's step-by-step decision is agreement up to the end of the shorter string |
| Misc.AreStringsEqual | game_misc.h:48-66 | true exactly when the strings agree up to the end of the shorter one |
| Misc.StringsEqualSymmetric | game_misc.h:55-59 | the comparison is symmetric |
| Misc.StringsEqualReflexive | game_misc.h:48-66 | every string equals itself |
| Misc.PrefixComparesEqual | game_misc.h:53-65 | a string compares equal to any longer string it is a prefix of, in either order |
| Misc.DifferenceComparesUnequal | game_misc.h:55-59 | strings that differ before either one ends compare unequal |
| Input.IsNewlyPressed | game.h:42-46 | the test as written, with no contract of its own; `Pressed`, `NotNewlyPressed` and `PressTransitions` state when it holds |
| Input.Pressed | game_platform_linux.cpp:120-127 | the updated button is newly pressed exactly when it goes from up to down |
| Input.NotNewlyPressed | game.h:42-46 | a button that was down, a button that is up, and a button whose IsNew is cleared are never newly pressed |
| Input.PressTransitions | game.h:45 | a press of a button that was up is newly pressed; a second press in a row is not; a release never is |
| Input.GameInputButton.constructor | game.h:36-40 | a zero-initialised button |
| Input.ProcessKeyboardOrMouseButton | game_platform_linux.cpp:120-127 | the button becomes `Pressed` of its old state; the Win32 version at game_platform_win32.cpp:157-164 is the same |
| Input.AndEqualsCovers | game_platform_win32.cpp:166-174 | `(State & Bit) == Bit` holds exactly when every bit of Bit is set in State |
| Input.ProcessXInputDigitalButton | game_platform_win32.cpp:166-174 | IsDown becomes "every bit of ButtonBit is set"; WasDown and IsNew update as for a key |
| Input.MakeButtonsObsolete | game_platform_linux.cpp:906-912 | every button's IsNew is cleared, WasDown and IsDown stay, and so no button is newly pressed (also game_platform_win32.cpp:846-851) |
| Input.FirstMatchFromCorrect | game_platform_linux.cpp:400-410 | the search finds the smallest matching index, and gives PARAM_MISSING exactly when no argument matches |
| Input.PlatformCheckParam | game_platform_linux.cpp:400-410 | the loop returns the smallest index whose argument `AreStringsEqual`-matches Param, or -1 when none does |
| Input.PlatformCheckParamValue | game_platform_linux.cpp:412-423 | the argument after the first match; null when Param is missing or is the last argument |
| Input.FindPastLastSeparator | game_platform_linux.cpp:528-533 | the result `SplitsAt` the module name: it lies before the terminator, no separator follows it, and it is 0 or follows a separator |
| Input.SplitPointUnique | game_platform_linux.cpp:528-533 | only one position `SplitsAt` the module name, so the loop's result is the position just past the last separator |
| Input.SplitModuleName | game_platform_linux.cpp:526-535 | ExecutableName's first characters become the module name's from the split point to the terminator, and ExecutablePath's the ones before it; the rest of both buffers stays; zeroed buffers end up holding the two parts as C strings (Win32: game_platform_win32.cpp:622-631, with '\\') |
| KeyMap.LinuxMapXKeySymToKeyCode | game_platform_linux.cpp:151-286 | the table as written, with no contract of its own; `LinuxMapRoundTrip` states which keysyms it maps and to what |
| KeyMap.LinuxMapToInverse | game_platform_linux.cpp:151-286 | a keysym the table maps is the keysym listed for the code it gets |
| KeyMap.InverseToLinuxMap | game_platform_linux.cpp:151-286 | every listed keysym maps to its key code |
| KeyMap.LinuxMapRoundTrip | game_platform_linux.cpp:151-286 | a keysym maps to a code exactly when it is that code's listed keysym, so unlisted keysyms give false |
| KeyMap.LinuxMapExamples | game_platform_linux.cpp:205 | XK_a maps to A, XK_KP_0 to Num0, and the plain space keysym to nothing |
| KeyMap.OnlyKeypadSpaceIsSpace | game_platform_linux.cpp:165 | only XK_KP_Space maps to Space |
| KeyMap.SpaceBarMapsToSpace | game_platform_linux.cpp:165 | with XK_space added to the table, both space keysyms give Space and every other keysym maps as before |
| KeyMap.Win32MapVKToKeyCode | game_platform_win32.cpp:188-440 | the mapping as written, with no contract of its own; `Win32MapCoverage` states which virtual keys it maps and to what |
| KeyMap.Win32SwitchKey | game_platform_win32.cpp:218-330 | the switch, with no contract of its own; `Win32SwitchDomain` states which keys it handles and `Win32MapCoverage` that the map uses it for them |
| KeyMap.Win32TableKey | game_platform_win32.cpp:332-434 | the table lines, with no contract of its own; `Win32TableDomain` states which keys it maps |
| KeyMap.Win32TableDomain | game_platform_win32.cpp:332-434 | the table lines map exactly the 90 virtual keys in `Win32TableKeys` |
| KeyMap.Win32SwitchDomain | game_platform_win32.cpp:218-330 | the switch maps exactly the 14 virtual keys in `Win32SwitchKeys` |
| KeyMap.Win32MapCoverage | game_platform_win32.cpp:188-440 | for every input: after the VK_SHIFT remapping, a key maps to Some exactly when it is not 255, is not VK_CLEAR with E0, and is in the table or the switch; a table key gets its table entry and a switch key its switch entry; every other key returns false |
| KeyMap.Win32SwitchAndTableDisjoint | game_platform_win32.cpp:218-433 | no virtual key is both in the switch and in the table, so the table never overwrites the switch |
| KeyMap.FakeKeyDiscarded | game_platform_win32.cpp:195-197 | VK code 255 always maps to false |
| KeyMap.E0SelectsRightHandKeys | game_platform_win32.cpp:220-243 | E0 selects RightControl, RightAlt and NumEnter; without it: LeftControl, LeftAlt and Enter |
| KeyMap.Win32SwitchKeyMapped | game_platform_win32.cpp:218-330 | a key the switch handles, other than VK_CLEAR, gets its switch entry from the whole map, with or without E0 |
| KeyMap.EditingKeysWithoutE0 | game_platform_win32.cpp:247-290 | without E0, INSERT, DELETE, HOME, END, PRIOR and NEXT give their Num* keys |
| KeyMap.EditingKeysWithE0 | game_platform_win32.cpp:247-290 | with E0, INSERT, DELETE, HOME, END, PRIOR and NEXT give the main keys |
| KeyMap.ArrowKeysWithoutE0 | game_platform_win32.cpp:292-319 | without E0 the four arrows give the keypad arrows |
| KeyMap.ArrowKeysWithE0 | game_platform_win32.cpp:292-319 | with E0 the four arrows give the main arrows |
| KeyMap.E0SelectsMainNavigationKeys | game_platform_win32.cpp:247-319 | INSERT, DELETE, HOME, END, PRIOR, NEXT and the arrows give their Num* key without E0 and the main key with it |
| KeyMap.ClearAndNumpad5 | game_platform_win32.cpp:322-329 | VK_CLEAR is NumClear without E0 and false with it; VK_NUMPAD5 is not mapped |
| KeyMap.ShiftIsRemapped | game_platform_win32.cpp:198-200 | VK_SHIFT maps as the key that MapVirtualKey gives for its scan code |
| Bmp.DecodeEncodeU32 | game_image.cpp:95-99 | reading back the four bytes of a little-endian store gives the stored u32 |
| Bmp.EncodeDecodeU32 | game_image.cpp:95-99 | storing the u32 read from four bytes writes those bytes back |
| Bmp.ParseHeader | game_image.cpp:12-29 | the packed `bmp_header` as `ConsumeType` reads it at line 64, with no contract of its own; `HeaderIsLeadingBytes` and `SignatureIsBM` state its layout |
| Bmp.HeaderIsLeadingBytes | game_image.cpp:64 | the header is read from the first 54 bytes alone |
| Bmp.SignatureIsBM | game_image.cpp:66-67 | the signature test accepts exactly a file that starts with 'B', 'M' |
| Bmp.ParseMasks | game_image.cpp:34-38 | the packed `bmp_bitfields_masks` read at line 70, with no contract of its own; `MasksFollowHeader` states where it is read |
| Bmp.MasksFollowHeader | game_image.cpp:70 | the masks are the 12 bytes right after the 54-byte header |
| Bmp.CheckHeader | game_image.cpp:66-69 | NoError exactly when the signature is BM, BitsPerPixel is 32 and Compression is 3; otherwise one of the three check errors |
| Bmp.LoadError | game_image.cpp:57-125 | LastError when the loader returns, with no contract of its own: NoError after a failed read, else the header check's error; `ValidationOrder` states which check's error it is, `MissingFileReportsNoError` its failed-read case, and `LoadImageBmp` returns it |
| Bmp.MissingFileReportsNoError | game_image.cpp:57-125 | a failed read leaves LastError at NoError, where the not-found comment expects NotFound; on a file that was read the two agree |
| Bmp.IntendedLoadErrorSeparatesMissing | game_image.cpp:122-125 | with NotFound set on a failed read, NoError means a file that was read and passed every check, and NotFound means exactly a failed read |
| Bmp.ValidationOrder | game_image.cpp:66-69 | a wrong signature is reported whatever the depth and compression; a wrong depth whatever the compression; then CompressionNot3 exactly when the compression is not 3 |
| Bmp.AlphaMask | game_image.cpp:75 | `~(R\|G\|B)`: together with R\|G\|B it fills all 32 bits |
| Bmp.ShiftsAreLowestBits | game_image.cpp:72-80 | all four scans succeed exactly when the three masks and the alpha mask are non-zero; each shift is then its mask's lowest set bit |
| Bmp.Repack | game_image.cpp:95-98 | the output pixel's bytes 3, 2, 1 and 0 are the source pixel's alpha, red, green and blue channels, each `(p >> shift) & 0xFF` |
| Bmp.StandardShifts | game_image.cpp:72-75 | A8R8G8B8 masks give shifts 24, 16, 8 and 0 |
| Bmp.StandardMasksKeepPixels | game_image.cpp:95-98 | with A8R8G8B8 masks every pixel is left as it was |
| Bmp.PushRequest | game_image.cpp:82 | PushSize's argument, the s32 product converted to a uptr, so always below 2^64; `RequestBytes` states its value |
| Bmp.RequestBytes | game_image.cpp:82 | for a 32-bit header with a non-zero Width * Height whose size product fits s32, the request is non-zero, and for positive sizes it is 4 * Width * Height bytes |
| Bmp.StoreU32 | game_image.cpp:99 | a store writes the four little-endian bytes of the value and no other byte |
| Bmp.RowsInFileOrder | game_image.cpp:89-105 | pixel (X, Y) is read from, and stored at, Pitch * Y + 4 * X with Pitch = 4 * Width: file order, no vertical flip |
| Bmp.RepackRow | game_image.cpp:92-100 | one pass of the inner loop stores the row's Width decoded pixels after the ones already stored, and writes no other byte |
| Bmp.RepackRows | game_image.cpp:89-105 | after the two loops, the block holds every decoded pixel in order, and no byte outside it changed |
| Bmp.LoadImageBmp | game_image.cpp:41-128 | a missing file ends with LastError NoError, the zero image and nothing changed; a file that was read gets the first failing check's error, else NoError; on an error the image is zero and nothing changes. On success the partition is pushed by the header's request. When the push fails the image stays zero; otherwise Width, Height, BytesPerPixel 4 and Pitch Width * 4 are filled in, and the block holds the decoded pixels |

## Left out

- File I/O. The file is a parameter: its bytes, or None where `PlatformReadEntireFile` fails.
  The read itself, `PlatformFreeEntireFilePiece` and the debug output are not modelled. The read
  writes no error code, so the None path keeps the NoError set on entry (see "## Findings").
- Concurrency. The ticket-mutex calls inside `InitializePartition`, `PushSize` and
  `ResetPartition` are left out, because each operation is modelled as run by one thread. The
  atomics and the busy-wait are sequential counter updates. `TicketMutex.Enter` requires a
  caller whose ticket is being served, since with one thread any other state spins forever.
- Allocating the hunk, the platform shells, window and device handling, floating point,
  `game_draw.cpp` and frame timing are not part of this model.
- `Memory.PushSize` does not grow the partition: the code shown returns null when nothing fits.
- `memory_partition_block`/`CurrentBlock` in game_memory.h are records only (`BlockChain`,
  `DeclaredPartition`). The operations follow game_memory.cpp's `Piece`/`Marker`/`NextPiece`
  fields.
- `Bmp.LoadImageBmp` takes a partition. game_image.cpp declares a `memory_heap *Heap` parameter but
  passes `Partition` to `PushSize`; the code's use is followed.
- Bmp.LoadImageBmp: its caller must pass a file that is `Loadable`. C leaves several things
  undefined, or the program asserts against them. The model takes the following as
  preconditions instead of giving them a meaning:
  - reads past the end of the file;
  - an s32 overflow of `Width * Height * 4`;
  - a zero size product (PushSize's `Assert(Size)`);
  - a failing shift assertion.
- `Memory.PushSize`, `Misc.CopyBytes` and `Memory.InitializePartition` take their assertions
  (`Size != 0`, `InitSize != 0`, a null Base) as preconditions.
- `SwapEndianU32` and `SwapEndianU16` are modelled as functions of the value; the source writes
  the result back through the pointer.
- The MSVC intrinsic branches are not modelled separately. On a non-zero value they compute
  what the corrected scans and swaps compute. On 0, `_BitScanForward`/`_BitScanReverse` leave
  Index undefined, where the model gives 0.
- `Platform.FourCCAscii` states the byte layout for ASCII characters only. Above 0x80 a
  signed `char` sign-extends, which `FourCCHighLastChar` states.
- `KeyMap.Win32MapVKToKeyCode` takes `MapVirtualKey`'s VK_SHIFT remapping as a function
  parameter. It leaves out the NUMLOCK and E1 `ScanCode` rewrites, because nothing reads
  `ScanCode` after them.
- The Xbox controller's dispatch on Linux (which uses `=` for `==`), the XInput polling and
  the per-frame clearing of the controllers' `IsNew` flags are left out. Only the keyboard and
  mouse clearing loops are modelled.
- The copies in `Misc` write from index 0 of the destination array, and `CopyString` reads from
  an offset into its source. They do not model a destination pointer into the middle of an
  array, or two overlapping ranges of one array (`CopyBytes(P + 1, P, N)`).
- `Input.SplitModuleName` takes the module name as already read; `readlink` and
  `GetModuleFileNameA` are I/O. The `Verify` around `GetModuleFileNameA` is left out.
- `Platform.Min` and `Platform.Max` do not state which argument wins a tie: on integers the two
  are the same value.

## Findings

| source | as written | input that shows it | evidently intended | confidence | as-written member | corrected member |
|---|---|---|---|---|---|---|
| game_platform.h:295 | `SwapEndianU16` (GNUC) uses logical `\|\|`, giving 0 or 1 | 0x1234 gives 1 | the byte swap, 0x3412 | not executed | Platform.SwapEndianU16AsWritten, Platform.SwapEndianU16AsWrittenCollapses | Platform.SwapEndianU16, Platform.SwapEndianU16Involutive |
| game_platform.h:240 | `FindMostSignificantBit` (GNUC) starts at bit 31 and counts up (`Test++`) | 1 reaches a shift by 32 | count down from bit 31 to 0 | not executed | Platform.FindMostSignificantBitAsWritten, Platform.MostSignificantBitAsWrittenFails | Platform.FindMostSignificantBit, Platform.MostSignificantBitCorrect |
| game_image.cpp:122-125 | a failed read leaves LastError at the NoError set at line 57; the comment says NotFound is already set, but no line writes it | a file that cannot be opened: LastError NoError, zero image | LastError NotFound on a failed read | not executed | Bmp.LoadError, Bmp.MissingFileReportsNoError | Bmp.IntendedLoadError, Bmp.IntendedLoadErrorSeparatesMissing |
| game_platform_linux.cpp:165 | the keysym table lists `XK_KP_Space` for Space and not `XK_space` | the space bar's keysym 0x20 maps to nothing | the space bar gives Space | not executed | KeyMap.LinuxMapXKeySymToKeyCode, KeyMap.OnlyKeypadSpaceIsSpace | KeyMap.LinuxMapXKeySymToKeyCodeIntended, KeyMap.SpaceBarMapsToSpace |
| game_memory.h:33 | `PushTypeArray` leaves `Count` unparenthesised in `sizeof(Type) * Count`; `ConsumeTypeArray` at game_platform.h:260 does the same | 4-byte type, Count `1 + 1`, requests 5 bytes | 8 bytes, room for two elements | not executed | Memory.PushTypeArraySizeAsWritten, Memory.PushTypeArrayCountUnparenthesised | Memory.PushTypeArraySize |
