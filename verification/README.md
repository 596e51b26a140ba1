# The vfkit configuration codec, modelled and proved

vfkit describes a virtual machine as a list of command-line flags, as a JSON document and as a Go object. The code
that moves between these forms is written by hand, once in each direction, for thirteen device kinds and three
bootloaders. This project models both directions and proves how they fit together: what survives, what is lost, and
the exact condition under which nothing is. It also models what happens after a configuration is read (the lists
handed to the virtualization framework) and the cleanup protocol for cloud-init images shared by several vfkit
processes.

Run `dafny verify dfyconfig.toml`.

| Module | What it holds |
|---|---|
| Text | splitting and joining, decimal numbers, hardware addresses |
| Notations | exactly which texts are read as numbers and addresses, character by character |
| Options | key/value options; reading a list item by item, and two passes over one list |
| Devices | the thirteen device kinds as values, what one option does to each, and their printed text |
| DeviceObjects | the device objects: loops that update fields in place, printers that append to a text |
| DeviceRoundTrip | print and read, and read-print-read, for every device kind |
| Printing | exactly what can be printed, and every text as fields joined by commas |
| OptionOrder | when the order of options matters, for every kind; the two-pass readers are one pass |
| NetAcceptance | exactly which virtio-net option lists are accepted, and what they describe |
| DeviceAcceptance | the same for every device kind |
| StringSlice | the quote-aware list syntax and the flag value that accumulates it |
| Bootloaders | the bootloader codecs through both lexers |
| Config | the virtual machine object, memory rounding in 64-bit words, time synchronisation, ignition |
| CommandLine | the flag table, flag groups, and rebuilding a machine from flags |
| FlagLaws | what each flag does to the machine, whatever flags come before it; refusals and flag groups |
| VmRoundTrip | the whole-machine command-line round trip, from machines and from command lines |
| Json, JsonVm | the JSON codec on documents as maps; key order; the whole-machine JSON round trip |
| JsonDocuments | which arbitrary documents are read, entry by entry, and which entries are written |
| VzConfig | the accumulation of devices into framework lists |
| CloudInit | image names, one cleanup, and the protocol between processes |

A class stands for each object the source updates field by field. It has a `View()` onto a value, and each method's
contract ties the new view to a function of the old one (usually `Fold(step, …)`, reading a list one item at a
time). The results about those functions are the lemmas. Each of those functions is tied, over all its inputs, to a
statement that does not use it: what is accepted and refused, and what comes out, told by the characters, options,
entries or fields of the input, with the source's constants written out as numbers and names.

Outside facts are parameters: which image paths hold a readable, non-qcow2 file (`DiskOracle`), what the host can do
(`Env`, `Host`), whether a process id is in use and a file can be removed (`TempDir.Cleanup`), and the random part of
an image name (`Action.Create`).

## What the proofs found

Several properties that the two codecs suggest do not hold for every value. The code is modelled as it is, and each
result below is an if-and-only-if (or a closed form) over all inputs, with a condition that can be checked beforehand.

- `DeviceRoundTrips`, `ReadPrintRead`: an nbd timeout under one millisecond is not printed, so the default of 15
  seconds comes back; `vfkitMagic` set on a virtio-net device without a socket path is not printed either. Nothing
  else is ever lost from a device that was read from text.
- `OptionOrderIrrelevant`: the order of a device's options matters exactly when two of them do different things to one
  setting and some order of the list can be accepted at all.
- `RoundIsLeast`, `VmRoundTrips`, `StartPrintStart`: a memory size above 2^64 - 2^20 bytes wraps around to 0 MiB when it
  is printed. A machine that came from a command line is whole in MiB; if it can be printed, it comes back unless it
  has no processors or memory, a time synchronisation, a display added by `--gui`, a store path with a bare comma or
  unbalanced quotes, a macOS bootloader, or one of the two losses above.
- `EfiRoundTrips`: an EFI store path survives `--bootloader` exactly when its quotes are balanced and it has no comma
  outside them.
- `QuotedListRoundTrip`, `SetTwice`: a list of one empty field cannot be written, so two calls of `Set` equal one call on
  the joined text only if both texts list something.
- `VmJsonRoundTrips`, `JsonReadWriteRead`, `MagicOffIsLost`: a virtio-net device with a socket path and `vfkitMagic` off
  is written without the field, and an absent field is read as on. An open socket is written as an empty object, so its
  descriptor never comes back: any object is read as a file without a descriptor.
- `SecondRun`, `SecondRunKeeps`: building the framework lists writes pty names and connected sockets into the
  configuration. vfkit's own checks accept the result a second time exactly when no device uses a pty.
- `CleanupIsSafe`, `ReuseIsUnsafe`: over any interleaving of processes, no image of a live process can be removed at any
  point exactly when no image is created under a name that some process is just about to remove. Names that never
  come back are enough (`FreshNamesAreSafe`), but process ids and random suffixes can come back, and a run is given.

## Model

| member | source | states |
|---|---|---|
| Text.SplitParts | pkg/config/virtio.go:181-182 | splitting at commas loses nothing (joining gives the text back) and leaves no comma inside a part |
| Text.SplitJoin | pkg/config/virtio.go:181-182 | comma-free parts come back from their join |
| Text.ParsePrintedNumber | pkg/config/virtio.go:684-709 | a printed number is read back exactly when it fits the reader's bound, and refused otherwise |
| Text.ParsedMacLength | pkg/config/virtio.go:507-512 | an accepted hardware address has 6, 8 or 20 bytes in every notation |
| Text.MacRoundTrip | pkg/config/virtio.go:483-512 | a printed hardware address is read back exactly when it has 6, 8 or 20 bytes |
| Notations.ParseIntMeaning | pkg/config/virtio.go:859-862 | a signed number is read from exactly an optional sign and digits whose value is in range |
| Notations.ParseUintMeaning | pkg/config/virtio.go:704-709 | an unsigned number is read from exactly the digits whose value is in range |
| Notations.DecValueConcat | pkg/config/virtio.go:704-709 | digits are weighed by powers of ten |
| Notations.PrintedNumberIsShort | pkg/config/virtio.go:684-694 | printed numbers have no superfluous zeros |
| Notations.ParseMacMeaning | pkg/config/virtio.go:507-512 | an address is read from exactly 6, 8 or 20 bytes in hexadecimal digits of either case, separated by colons, by dashes, or in dotted pairs |
| Notations.PrintedAddress | pkg/config/virtio.go:483-485 | an address is printed with colons and without capitals |
| Options.StrToOptionParts | pkg/config/virtio.go:156-167 | `key=value` is that option even when the value holds more `=`; a bare key has the empty value |
| Options.StrvToOptions | pkg/config/virtio.go:169-179 | the options of the non-empty strings, in order |
| Options.AppendedSetting | pkg/config/virtio.go:156-182 | a setting a printer appends to any text reads as exactly one more option at the end |
| Options.TwoPasses | pkg/config/virtio.go:619-634 | reading one class of items first and the set-aside rest second equals one reading of the list |
| DeviceObjects.RosettaShare.FromOptions | pkg/config/virtio.go:787-801 | accepts and ends in the state that reading option by option gives |
| DeviceObjects.RosettaShare.ToCmdLine | pkg/config/virtio.go:770-785 | the printed text, refused without a mount tag |
| DeviceObjects.VirtioFs.FromOptions | pkg/config/virtio.go:744-756 | accepts and ends in the state that reading option by option gives |
| DeviceObjects.VirtioVsock.FromOptions | pkg/config/virtio.go:697-719 | the same, starting from listen |
| DeviceObjects.VirtioSerial.FromOptions | pkg/config/virtio.go:280-298 | the same, accepted only if exactly one of log file, stdio and pty is set |
| DeviceObjects.VirtioInput.FromOptions | pkg/config/virtio.go:330-343 | the same, accepted only if an input type was given |
| DeviceObjects.VirtioGPU.FromOptions | pkg/config/virtio.go:374-402 | the same, with the default resolution only if neither dimension was given |
| DeviceObjects.VirtioNet.SetSocket | pkg/config/virtio.go:427-430 | sets the descriptor, clears nat, changes nothing else |
| DeviceObjects.VirtioNet.SetUnixSocketPath | pkg/config/virtio.go:432-436 | sets the path and the magic packet, clears nat, changes nothing else |
| DeviceObjects.VirtioNet.ReadOption | pkg/config/virtio.go:500-545 | one option updates the device and the two local variables of the loop, or is refused |
| DeviceObjects.VirtioNet.FromOptions | pkg/config/virtio.go:490-557 | pre-scan, loop and final checks together decide acceptance and the final state |
| DeviceObjects.VirtioNet.ToCmdLine | pkg/config/virtio.go:455-488 | the printed text, in the old syntax just when the magic packet is on |
| DeviceObjects.DiskStorageConfig.FromOptions | pkg/config/virtio.go:964-985 | accepts and ends in the state that reading option by option gives |
| DeviceObjects.DiskStorageConfig.ToCmdLine | pkg/config/virtio.go:947-962 | the printed text, refused without an image path |
| DeviceObjects.VirtioBlk.FromOptions | pkg/config/virtio.go:619-634 | the two passes accept and end in the state of one pass over the list, given a raw image |
| DeviceObjects.VirtioBlk.ToCmdLine | pkg/config/virtio.go:636-648 | the disk's text with the identifier appended |
| DeviceObjects.NetworkBlockDevice.constructor | pkg/config/virtio.go:803-814 | a fresh nbd device has a timeout of 15 seconds and full synchronisation |
| DeviceObjects.NetworkBlockStorageConfig.FromOptions | pkg/config/virtio.go:1000-1015 | accepts and ends in the state that reading option by option gives |
| DeviceObjects.NetworkBlockStorageConfig.ToCmdLine | pkg/config/virtio.go:987-998 | the printed text, refused without a uri |
| DeviceObjects.NetworkBlockDevice.FromOptions | pkg/config/virtio.go:852-879 | the two passes accept and end in the state of one pass over the list |
| DeviceObjects.NetworkBlockDevice.ToCmdLine | pkg/config/virtio.go:830-850 | the storage text with identifier, positive timeout and known synchronisation mode appended |
| DeviceObjects.BuildDevice | pkg/config/virtio.go:181-224 | the object-building reader computes the device a text describes, or refuses |
| DeviceRoundTrip.KindNames | pkg/config/virtio.go:181-216 | each kind has one name, and no other text names a kind |
| DeviceRoundTrip.ReadDevice | pkg/config/virtio.go:181-224 | a kind's name followed by a tail is read by that kind from exactly the options in the tail |
| DeviceRoundTrip.RosettaTailRead | pkg/config/virtio.go:770-801 | the options a rosetta share prints restore it in a fresh object |
| DeviceRoundTrip.FsTailRead | pkg/config/virtio.go:733-756 | the same for virtio-fs |
| DeviceRoundTrip.SerialTailRead | pkg/config/virtio.go:264-298 | the same for virtio-serial |
| DeviceRoundTrip.VsockTailRead | pkg/config/virtio.go:684-719 | the same for virtio-vsock, in both directions of listening |
| DeviceRoundTrip.InputTailRead | pkg/config/virtio.go:322-343 | the same for virtio-input |
| DeviceRoundTrip.GpuRead | pkg/config/virtio.go:366-402 | the same for virtio-gpu, where the reader's defaults and checks change nothing |
| DeviceRoundTrip.DiskTailRead | pkg/config/virtio.go:947-985 | the same for the storage shared by nvme, virtio-blk and usb-mass-storage |
| DeviceRoundTrip.BlkTailRead | pkg/config/virtio.go:619-648 | the same for virtio-blk with its identifier |
| DeviceRoundTrip.NetTailRead | pkg/config/virtio.go:455-557 | the same for virtio-net, in all four syntaxes, except the magic packet without a path |
| DeviceRoundTrip.NbdTailRead | pkg/config/virtio.go:830-879 | the same for nbd, except a timeout under one millisecond, which becomes 15 seconds |
| DeviceRoundTrip.AcceptedIsReadable | pkg/config/virtio.go:181-224 | whatever text is accepted, the device has comma-free texts and numbers within bounds |
| DeviceRoundTrip.PrintThenRead | pkg/config/virtio.go:181-224 | print and read of a readable device gives the device but for the two lost settings |
| DeviceRoundTrip.DeviceRoundTrips | pkg/config/virtio.go:181-224 | for all thirteen kinds, a printable device comes back from its text if and only if it is readable and loses nothing |
| DeviceRoundTrip.ReadPrintRead | pkg/config/virtio.go:181-224 | for every accepted text, printing and reading again keeps the device if and only if it loses nothing |
| Printing.DevicePrints | pkg/config/virtio.go:264-278 | for all thirteen kinds, a device prints if and only if its settings are as listed, and its text is its fields joined by commas |
| Printing.PrintReadPrint | pkg/config/virtio.go:830-850 | a printed text that can be read prints again as it is, if and only if it is not from an nbd device with a timeout under one millisecond |
| Printing.BootloaderPrints | pkg/config/bootloader.go:68-128 | which bootloaders print, and their arguments |
| Printing.VmPrints | pkg/config/config.go:85-122 | a machine prints if and only if it has a bootloader that does and so does each device; and the whole argument list |
| OptionOrder.DeviceSame | pkg/config/virtio.go:490-557 | two fitting lists for the same settings describe the same device if and only if the last option for each setting has the same effect, for all kinds |
| OptionOrder.OptionOrderIrrelevant | pkg/config/virtio.go:490-557 | for all kinds and lists, every permutation is accepted or refused alike and gives the same device if and only if no two options do different things to one setting, or no order can be accepted |
| OptionOrder.ConflictMatters | pkg/config/virtio.go:181-224 | if two conflicting options end an accepted list, exchanging them gives another device or a refusal, for all kinds |
| OptionOrder.BlkTwoPasses | pkg/config/virtio.go:619-634 | virtio-blk's split of the list between device and disk equals one pass |
| OptionOrder.NbdTwoPasses | pkg/config/virtio.go:852-879 | nbd's split of the list between device and storage equals one pass |
| NetAcceptance.NetAccepts | pkg/config/virtio.go:490-557 | acceptance if and only if every option is well formed, exactly one of nat, fd and a non-empty final path is set, and type and its dependents agree; and the device that results |
| DeviceAcceptance.DeviceAccepts | pkg/config/virtio.go:181-224 | for all thirteen kinds, a list is accepted if and only if each option fits its kind and the list is complete (serial: exactly one output; gpu: both dimensions or neither; input: some type; virtio-blk: a raw image); the device is the one the last option for each setting describes |
| DeviceAcceptance.GpuAccepts | pkg/config/virtio.go:374-402 | accepted if and only if every dimension is a number of at least 1 and both or neither are given; neither means 800 by 600 |
| Options.FoldDescribes | pkg/config/virtio.go:490-545 | a reader that refuses just the options that do not fit, and moves from one description to the next, reads whole lists so |
| StringSlice.StrvBuilder.Next | pkg/cmdline/string_slice.go:28-32 | the trimmed buffer becomes the next field and the buffer is emptied |
| StringSlice.StrvBuilder.End | pkg/cmdline/string_slice.go:44-55 | the last field is kept unless it is the only one and trims to nothing |
| StringSlice.Parse | pkg/cmdline/string_slice.go:57-89 | the quote-tracking loop computes the specified list, or refuses |
| StringSlice.ParseStringSplits | pkg/cmdline/string_slice.go:57-89 | accepted if and only if quotes are balanced; the fields are any (hence the only) way to write the text as clean fields joined by commas, with outer quotes trimmed |
| StringSlice.CleanMeaning | pkg/cmdline/string_slice.go:62-86 | a clean field has balanced quotes and no comma with an even number of quotes before it, and conversely |
| StringSlice.FieldsUnique | pkg/cmdline/string_slice.go:62-83 | joining clean fields and cutting again gives the same fields |
| StringSlice.TrimQuotesMeaning | pkg/util/strings.go:5-11 | a text with a quote at each end loses all the quotes at both ends, any other text is left alone |
| StringSlice.QuoteRoundTrip | pkg/util/strings.go:5-11 | trimming undoes quoting of a quote-free text, and a quoted text is one clean field |
| StringSlice.QuotedListRoundTrip | pkg/cmdline/string_slice.go:22-89 | quote-free fields, quoted and joined, parse back to the same list, except a lone empty field |
| StringSlice.UnquotedIsSplit | pkg/cmdline/string_slice.go:57-89 | on quote-free text the syntax is plain comma splitting, except that the empty text is the empty list |
| StringSlice.StringSliceValue.Set | pkg/cmdline/string_slice.go:91-103 | replaces on the first accepted call, appends afterwards, changes nothing when refused |
| StringSlice.StringSliceValue.Append | pkg/cmdline/string_slice.go:116-119 | one more element, whatever it contains, and the changed mark stays |
| StringSlice.StringSliceValue.Replace | pkg/cmdline/string_slice.go:121-124 | the new list, and the changed mark stays |
| StringSlice.SetRun | pkg/cmdline/string_slice.go:91-103 | after any run of calls the value is the concatenation of the accepted lists; a default survives only if none was accepted |
| StringSlice.SetTwice | pkg/cmdline/string_slice.go:44-103 | two calls on a fresh value equal one call on the joined text if and only if both texts list something |
| Bootloaders.LinuxBootloader.FromOptions | pkg/config/bootloader.go:52-66 | accepts and ends in the state that reading option by option gives, the kernel command line unquoted |
| Bootloaders.LinuxBootloader.ToCmdLine | pkg/config/bootloader.go:68-86 | the three legacy flags, refused if any of them would be empty |
| Bootloaders.EFIBootloader.FromOptions | pkg/config/bootloader.go:98-113 | accepts and ends in the state that reading option by option gives |
| Bootloaders.EFIBootloader.ToCmdLine | pkg/config/bootloader.go:115-128 | the bootloader text, refused without a store path |
| Bootloaders.MacOSBootloader.FromOptions | pkg/config/bootloader.go:130-144 | accepts and ends in the state that reading option by option gives |
| Bootloaders.Build | pkg/config/bootloader.go:152-174 | the bootloader a list of strings describes, or a refusal |
| Bootloaders.BootloaderAccepts | pkg/config/bootloader.go:152-174 | a list is accepted if and only if it names a bootloader and every option fits it; the last option for each key decides |
| Bootloaders.EfiOptions | pkg/config/bootloader.go:115-128 | the options the reader sees in a printed EFI text, also when the path is cut at its bare commas |
| Bootloaders.CutPathIsShorter | pkg/config/bootloader.go:98-128 | a path that is cut can never come back whole, whatever its pieces say |
| Bootloaders.EfiRoundTrips | pkg/config/bootloader.go:98-128 | an EFI bootloader comes back through both lexers if and only if its path has balanced quotes and no comma outside them |
| Config.RoundIsLeast | pkg/config/config.go:74-79 | in wrapping arithmetic, the rounded size holds the bytes if and only if they are at most 2^64 - 2^20; then it is the least that does, else it is 0 |
| Config.RoundIsMonotone | pkg/config/config.go:74-79 | rounding is monotone, and exact just on multiples |
| Config.RoundIsIdempotent | pkg/config/config.go:66-79 | printing and rebuilding a second time changes nothing, and the first time adds less than 1 MiB |
| Config.HighBitsAreLost | pkg/config/config.go:66-72 | a size of 2^44 MiB and more loses its high bits |
| Config.TimeSyncRoundTrips | pkg/config/config.go:267-307 | a time synchronisation comes back from its text if and only if it has a port |
| Config.TimeSyncAccepts | pkg/config/config.go:275-307 | a text is accepted if and only if its options are all port numbers and the last is not zero |
| Config.IgnitionReads | pkg/config/config.go:230-255 | empty leaves it unset, a comma is refused, any other text is the path with port 1024 |
| Config.DevicesCmdLine | pkg/config/config.go:105-111 | the devices' arguments in order, or a refusal if one device is refused |
| Config.VirtualMachine.constructor | pkg/config/config.go:66-72 | the size is shifted to bytes and everything else is empty |
| Config.VirtualMachine.ToCmdLine | pkg/config/config.go:85-122 | the arguments of the whole machine, or a refusal |
| Config.VirtualMachine.AddDevices | pkg/config/config.go:208-211 | appends in order and touches nothing else |
| Config.ReadDevicesMeaning | pkg/config/config.go:154-163 | the devices read are those of the texts before the first one that is refused |
| Config.VirtualMachine.AddDevicesFromCmdLine | pkg/config/config.go:154-163 | appends the devices before the first refused text, and succeeds if and only if there is none |
| Config.VirtualMachine.AddTimeSyncFromCmdLine | pkg/config/config.go:213-224 | sets the time synchronisation read, leaves it on empty or refused text |
| Config.VirtualMachine.AddIgnitionFileFromCmdLine | pkg/config/config.go:240-255 | sets the ignition read, leaves it on empty or refused text |
| Config.VirtualMachine.FilterDevices | pkg/config/config.go:165-173 | the devices of a kind, in order |
| CommandLine.NewBootloader | cmd/vfkit/main.go:47-67 | the legacy flags win over --bootloader |
| CommandLine.AddGuiDevices | cmd/vfkit/main.go:123-147 | a display and a keyboard are added just where there is none |
| CommandLine.NewVMConfiguration | cmd/vfkit/main.go:69-153 | the machine the flags describe, or a refusal |
| FlagLaws.TimeSyncFlag | cmd/vfkit/main.go:92-94 | after any accepted command line, --timesync sets what its text says, or is refused |
| FlagLaws.PrintedTimeSyncFlag | cmd/vfkit/main.go:92-94 | a printed time synchronisation is set if and only if it has a port |
| FlagLaws.PidFileFlag | cmd/vfkit/main.go:106-117 | --pidfile is refused if and only if the file cannot be written, and changes nothing else |
| FlagLaws.IgnitionFlag | cmd/vfkit/main.go:149-151 | --ignition sets the path with port 1024, refuses a comma, and unsets on an empty path |
| FlagLaws.CpusFlag | pkg/cmdline/cmdline.go:51 | --cpus sets a number below 2^64 and refuses any other text |
| FlagLaws.MemoryFlag | pkg/cmdline/cmdline.go:53 | --memory sets the size in MiB, less the bits that do not fit, and refuses any other text |
| FlagLaws.NestedFlag | cmd/vfkit/main.go:83-86 | --nested is accepted if and only if the host supports it |
| FlagLaws.FlagForOthers | pkg/cmdline/cmdline.go:58-59 | --log-level and --restful-uri leave the machine alone |
| FlagLaws.UnknownFlag | pkg/cmdline/cmdline.go:38-65 | a flag that is not in the table is refused |
| FlagLaws.MissingValue | pkg/cmdline/cmdline.go:38-65 | a flag without its value is refused |
| FlagLaws.GuiFlag | cmd/vfkit/main.go:123-147 | --gui appends a display of 800 by 600 and a keyboard where there is none |
| FlagLaws.GuiAnywhere | pkg/cmdline/cmdline.go:44 | it makes no difference where --gui stands |
| FlagLaws.DeviceFlag | cmd/vfkit/main.go:119-121 | --device appends the device its text describes, or is refused |
| FlagLaws.CloudInitFlag | cmd/vfkit/main.go:96-104 | --cloud-init appends one disk with the image path, behind the devices, or nothing without an image |
| FlagLaws.ImageDevice | cmd/vfkit/main.go:102-104 | that disk is a plain virtio-blk device with the path, if the image is raw |
| FlagLaws.LegacyFlags | cmd/vfkit/main.go:47-57 | the three legacy flags describe a Linux bootloader unless all are empty, with one processor and 512 MiB |
| FlagLaws.BootloaderFlag | cmd/vfkit/main.go:59-67 | --bootloader describes what its text says, with the same defaults |
| FlagLaws.GroupRules | pkg/cmdline/cmdline.go:46-49 | a command line is refused if --bootloader stands beside a legacy flag or the legacy flags are not all there, and is decided by its options otherwise |
| VmRoundTrip.ReadVmArgs | pkg/cmdline/cmdline.go:38-64 | what the flag table makes of any printed command line, field by field |
| VmRoundTrip.FlagGroupsKept | pkg/cmdline/cmdline.go:46-49 | a printed command line never breaks the mutually-exclusive and required-together rules |
| VmRoundTrip.SizesRebuilt | pkg/config/config.go:89-94 | processors and rounded memory come back if and only if both are non-zero and the memory does not wrap |
| VmRoundTrip.BootRebuilt | cmd/vfkit/main.go:47-67 | a printed bootloader comes back if and only if it is Linux, or EFI with a clean path |
| VmRoundTrip.DevicesRebuilt | pkg/config/config.go:154-163 | the devices come back in order if and only if each one does |
| VmRoundTrip.GuiCompletes | cmd/vfkit/main.go:123-147 | --gui keeps the configured devices first, guarantees a display and an input device, and is idempotent |
| VmRoundTrip.VmRoundTrips | pkg/config/config.go:85-122 | started with its own printed command line, vfkit rebuilds the same machine, memory rounded up, if and only if the machine satisfies a condition checkable beforehand |
| VmRoundTrip.StartedIsDescribable | cmd/vfkit/main.go:69-153 | a machine rebuilt from any command line has whole MiB of memory, an ignition and nesting that survive, and readable devices besides the display of --gui |
| VmRoundTrip.StartPrintStart | pkg/config/config.go:85-122 | a machine rebuilt from any command line comes back unchanged from its own printed one if and only if it satisfies a condition checkable beforehand |
| Json.NetJson | pkg/config/json.go:110-132 | a network device comes back if and only if it holds no descriptor, its address length is valid, and the magic packet is on exactly when there is a path |
| Json.DeviceJsonRoundTrips | pkg/config/json.go:134-202 | for all thirteen kinds, a device comes back from its own document if and only if that condition holds |
| Json.BootloaderJson | pkg/config/json.go:44-71 | a bootloader comes back if and only if it is not the macOS one |
| Json.IgnitionJson | pkg/config/json.go:95-104 | an ignition comes back without its port |
| Json.UnmarshalDevices | pkg/config/json.go:73-93 | the devices of an array in order, or a refusal if one is refused |
| Json.DeviceListJson | pkg/config/json.go:73-93 | a device list comes back in order if and only if each device does |
| JsonDocuments.DeviceRead | pkg/config/json.go:134-202 | for arbitrary documents of every kind: read if and only if it is an object with a known tag whose entries have their types and ranges and a valid address; and each field told by its entry |
| JsonDocuments.NetRead | pkg/config/json.go:110-132 | the magic packet is on if and only if there is a path and the entry is not false |
| JsonDocuments.DeviceListRead | pkg/config/json.go:73-93 | an array is read if and only if each item is, in order |
| JsonDocuments.BootloaderRead | pkg/config/json.go:44-71 | which documents are read as which bootloader |
| JsonDocuments.MachineRead | pkg/config/json.go:207-252 | for arbitrary documents: read if and only if each part is well formed, the ignition excepted; and each part told by its entry |
| JsonDocuments.DeviceWritten | pkg/config/json.go:281-436 | the tag and exactly the entries written for a device of each kind |
| JsonDocuments.MachineWritten | pkg/config/config.go:27-35 | exactly the entries written for a machine |
| JsonVm.ReadKey | pkg/config/json.go:217-250 | one key of a document updates exactly its own part of the machine |
| JsonVm.UnmarshalJSON | pkg/config/json.go:207-252 | whatever order the keys are visited in, the outcome is what the document describes |
| JsonVm.KeyOrderIrrelevant | pkg/config/json.go:217-250 | every iteration order of every document fails alike or yields the same machine |
| JsonVm.MalformedIgnitionIgnored | pkg/config/json.go:240-244 | a malformed ignition section reads like none at all |
| JsonVm.VmJsonRoundTrips | pkg/config/json.go:207-252 | a machine comes back from its own document, devices in order, if and only if it satisfies a condition checkable beforehand |
| JsonVm.JsonReadWriteRead | pkg/config/json.go:110-132 | a machine read from any document survives writing and reading if and only if no network device has the magic packet off |
| JsonVm.MagicOffIsLost | pkg/config/json.go:110-132 | a device for which it does not |
| VzConfig.VirtualMachineConfiguration.AddSocketDevice | pkg/vf/virtio.go:347-360 | a second socket device is skipped without an error |
| VzConfig.VirtualMachineConfiguration.AddToVirtualMachineConfig | pkg/vf/virtio.go:464-496 | one device goes to the list of its class or is refused; a pty name or connected socket is written into its description even when making the framework object then fails |
| VzConfig.VirtualMachineConfiguration.AppendDevice | pkg/vf/virtio.go:124-140 | each kind of device is appended to the list of its class, and a balloon replaces the one before |
| VzConfig.VirtualMachineConfiguration.AddDevices | pkg/vf/vm.go:135-139 | the loop over the devices, with what it leaves in their descriptions, up to the first refusal when there is one |
| VzConfig.VirtualMachineConfiguration.AddServiceDevice | pkg/vf/vm.go:140-160 | a service with a port asks for a socket device, one without does not |
| VzConfig.VirtualMachineConfiguration.Build | pkg/vf/vm.go:134-195 | the lists handed over, or a refusal |
| VzConfig.ListsAreFaithful | pkg/vf/vm.go:134-184 | each list is exactly the configured devices of its kinds and fields, in order; a balloon replaces an earlier one; and the one socket device |
| VzConfig.SingleSocketDevice | pkg/vf/vm.go:140-184 | at most one socket device, and one if and only if a vsock device is configured or a service has a port; the first configured one is preferred |
| VzConfig.BuildAccepts | pkg/vf/vm.go:134-195 | a run succeeds if and only if every device passes vfkit's own checks and is served by the host, or is a socket device behind another, the services are served and the lists accepted |
| VzConfig.PermissiveBuild | pkg/vf/vm.go:134-195 | on a host that turns nothing down vfkit's own checks decide |
| VzConfig.TriedMeaning | pkg/vf/virtionet.go:149-171 | successful or not, a run opens what each device asks for, up to the first that is refused |
| VzConfig.SecondRun | pkg/vf/virtio.go:292-345 | after a successful run, vfkit's own checks accept the configuration again if and only if no device uses a pty |
| VzConfig.SecondRunKeeps | pkg/vf/virtionet.go:111-113 | on any host a pty makes the second run fail; a second run that succeeds dials nothing and changes nothing, the first having replaced each socket path by its connected socket |
| CloudInit.NameText | pkg/util/credtemp.go:12-21 | the name of an image, spelled out |
| CloudInit.NameCarriesPid | pkg/util/credtemp.go:16-44 | the process id printed into an image name is the one scanned back, whatever the random part |
| CloudInit.ScanPidMeaning | pkg/util/credtemp.go:40-44 | a process id is scanned from exactly the names made of the prefix, spaces, a signed 32-bit number, a dash and anything |
| CloudInit.TempDir.Cleanup | pkg/util/credtemp.go:28-58 | fails on a directory it cannot list; else removes nothing but plain files with the prefix whose name carries the id of a process that is gone, and all of them unless a removal fails |
| CloudInit.InvKept | pkg/util/credtemp.go:16-58 | every step of every process keeps the invariant, except creating an image under a name about to be removed |
| CloudInit.HitIsUnsafe | pkg/util/credtemp.go:16-58 | after that exception a live process's image can be removed at once |
| CloudInit.CleanupIsSafe | pkg/util/credtemp.go:16-58 | over every interleaving of any number of processes, no image of a live process can be removed at any point if and only if no image is created under a name about to be removed; live processes' images are then in place |
| CloudInit.NewlyDoomed | pkg/util/credtemp.go:36-51 | a file comes to be removed only if it was listed as a plain file, carries a process id, and no live process has that id |
| CloudInit.ForeignNamesKept | pkg/util/credtemp.go:40-54 | in every run, a removal touches one file only, and its name has the prefix and carries a process id |
| CloudInit.FreshNamesAreSafe | pkg/util/credtemp.go:16-26 | runs in which no image name is ever reused are safe |
| CloudInit.ReuseIsUnsafe | pkg/util/credtemp.go:16-58 | a run from an empty directory in which a recurring name lets a live process's image be removed |

## Left out

- Text is a sequence of characters, so inputs that are not valid UTF-8, and positions counted in bytes, are not modelled.
- An object that refuses an option list keeps whatever it read before; only the refusal is stated, not that state.
- The flag library is reduced to `--name value` with decimal numbers: no shorthands, no `--name=value`, no radix
  prefixes or underscores in numbers, no positional arguments, no usage text.
- JSON as bytes: documents are maps, so duplicate or case-folded keys, fractional numbers and null array elements are not modelled.
- A file object without a descriptor, which only a JSON document can produce, makes the source crash when its
  descriptor is printed or logged; the model counts that as a refusal.
- Devices are values in the device lists, so sharing of one device object between two lists is not modelled.
- Objects of the virtualization framework are oracles that may fail; Rosetta installation, nbd address syntax and the
  255-byte identifier limit, creation of the console device and of the bootloader object are folded into them.
- The raw-image check reads a snapshot of the file system: a file that changes between two reads is not modelled.
- The macOS bootloader prints no arguments and the machine's command line leaves out time synchronisation, so neither
  survives it; both are part of the condition in VmRoundTrips. Renumbering of descriptors passed to a child process is
  not modelled.
- The REST server, signal handling, state waiting, vsock proxying, ignition serving, image contents and the GUI: they
  add no configuration logic.
- Error message texts: only success or refusal is modelled.
