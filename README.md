# USB host driver core (phoenix-rtos-usb `usbd`)

A Dafny model of the host side of the Phoenix-RTOS USB stack, `src/usbd.c`.
The driver keeps three kinds of state:

- a circular, doubly linked ring of *queues*, each one a queue head of the EHCI
  controller with its list of *transfer descriptors*;
- the one attached device with its default endpoint;
- a search tree of connected client drivers, ordered by port.

On top of these it builds control and bulk transfers, issues the standard requests
of the default pipe, and enumerates a newly attached device. It also serves
clients over a message port: `connect` and `urb` messages.

The model follows the program's structure:

| file | models |
|---|---|
| `usb.dfy` | constants, setup packets, the direction rule of control transfers, page rounding |
| `memory.dfy` | malloc/calloc/free, the 64-byte DMA pool and `mmap`, as bookkeeping of what is live |
| `ehci.dfy` | the controller calls the driver makes; each call is recorded in a log and read back as protocol steps |
| `queues.dfy` | `usb_queue_t`, `usb_transfer_t`, device and endpoint as classes; queue allocation, transfer appending, linking and deletion of unlinked queues |
| `usbd.dfy` | `usbd_common`, the ring invariant and `LIST_ADD`/`LIST_REMOVE`, `usb_linkAsync`, `usb_deleteQueue` |
| `transfers.dfy` | `usb_control` and `usb_bulk`, and the request exchange both as written and corrected |
| `requests.dfy` | the standard requests |
| `enumeration.dfy` | `usb_deviceAttach` and `usb_handleEvents` |
| `registry.dfy` | `usb_driver_cmp` and the driver tree |
| `dispatch.dfy` | `usb_connect`, `usb_urb` and the dispatch of `msgthr` |
| `descriptors.dfy` | the `bLength` walk of `usb_dumpConfiguration` |

The ring is modelled twice: by the `next`/`prev` fields, and by a ghost sequence
`ring` in list order from the head. `Usbd.Valid` ties the two together. It also
states that every scheduled queue owns live, disjoint resources: its queue head,
its transfer records and its descriptors.

Each operation that changes queues is a method. Its contract gives:

- the new ring;
- the exact change to the live sets of queue heads, descriptors and heap records;
- the controller calls appended to the log.

Lemmas connect these logs to the protocol steps a device sees. A step is a
SETUP with its packet, address and packet size, a port reset, or a wait.

## Model

| member | source | states |
|---|---|---|
| Usb.DirectionRule | src/usbd.c:193-194 | the data stage is IN exactly when the requested size is positive; the status stage always goes the other way, and neither stage is SETUP |
| Usb.SetAddressPacket | src/usbd.c:234-238 | SET_ADDRESS is host-to-device, standard, to the device, with the address in the low byte of wValue and no data stage |
| Usb.GetDescriptorPacket | src/usbd.c:254-258 | GET_DESCRIPTOR is device-to-host, standard, to the device; wValue has the descriptor type high and the index low, and wLength is the size |
| Usb.SetConfigurationPacket | src/usbd.c:304-308 | SET_CONFIGURATION is host-to-device with the value in wValue, no index and no data stage |
| Usb.SetInterfacePacket | src/usbd.c:324-328 | SET_INTERFACE is host-to-device and addressed to the interface, with the alternate setting in wValue and the interface in wIndex |
| Usb.RoundUpToPage | src/usbd.c:499 | the mapped size is the least multiple of the page that holds wTotalLength bytes: at least wTotalLength, less than a page more, and page aligned |
| Queues.AllocQueue | src/usbd.c:99-117 | either nothing is allocated and NULL is returned, or a fresh queue with a fresh queue head for the device address, endpoint number, speed and packet size, with no transfers and no links |
| Queues.AppendTransfer | src/usbd.c:120-134 | on failure nothing changes; otherwise one fresh transfer with a fresh descriptor (token, buffer, toggle as given; interrupt-on-complete clear) is appended at the tail, and the remaining size shrinks |
| Queues.ConsCallsBackwards | src/usbd.c:139-145 | the k-th `ehci_consQtd` call of `usb_linkTransfers` is for the k-th descriptor counted from the tail |
| Queues.LinkTransfers | src/usbd.c:137-146 | the last descriptor gets interrupt-on-complete and every descriptor is consed onto the queue head once, from the tail to the head |
| Queues.DeleteUnlinkedQueue | src/usbd.c:149-161 | every descriptor, every transfer record, the queue head and the queue are freed, and nothing else |
| Usbd.ListAdd | src/usbd.c:174 | `LIST_ADD` appends the queue at the tail of the ring; a lone queue links to itself, otherwise it sits between the old tail and the head |
| Usbd.LinkAsync | src/usbd.c:172-183 | the queue joins the ring at its tail; the controller gets one self-link for a lone queue, otherwise the link to the head's queue head and then the tail's link to it; the ring invariant holds |
| Usbd.Splice | src/usbd.c:167 | the pointer writes of `LIST_REMOVE`: a lone queue empties the ring; otherwise its neighbours are joined and the head moves on if it was removed; no other link changes |
| Usbd.ListRemove | src/usbd.c:167 | `LIST_REMOVE` takes the k-th queue out of the ring, the links match the shorter ring, and the views of the other queues are those of before |
| Usbd.Detach | src/usbd.c:166-167 | the queue head is unlinked between its ring neighbours' queue heads, and the queue leaves the ring with its resources untouched |
| Usbd.Free | src/usbd.c:168 | a queue taken out of the ring is freed with all it owns, and the invariant holds again |
| Usbd.DeleteQueue | src/usbd.c:164-169 | the queue leaves the ring after one unlink call naming its neighbours, and exactly its queue head, descriptors and records are freed |
| Transfers.DataChainAt | src/usbd.c:206-216 | the i-th data fragment of a control transfer has toggle 1, 0, 1, … starting from 1, and bulk fragments all have toggle 0 |
| Transfers.ControlChainStages | src/usbd.c:193-221 | a control transfer is a SETUP fragment with toggle 0, then data fragments in the data direction with alternating toggles starting at 1, then a status fragment with no buffer, toggle 1, in the opposite direction |
| Transfers.AppendData | src/usbd.c:206-216 | the data loop appends fragments whose lengths add up to the requested size when it succeeds; every fragment is non-empty, and the order and toggles follow the data chain |
| Transfers.AppendStages | src/usbd.c:199-221 | either all three stages are appended to an empty queue, or the queue owns only what was added so far |
| Transfers.BuildControl | src/usbd.c:196-221 | on any allocation failure everything allocated for the transfer is freed (rollback); otherwise the queue holds exactly the control stages and owns only fresh resources |
| Transfers.Control | src/usbd.c:186-226 | `usb_control` answers EOK with the queue scheduled at the tail and the log extended by its consQtd and link calls, or -ENOMEM with the ring, log and live sets unchanged |
| Transfers.BulkChain | src/usbd.c:346-351 | the bulk fragments all carry the given token and buffer with toggle 0, and their lengths add up to the size |
| Transfers.Bulk | src/usbd.c:339-359 | `usb_bulk` answers EOK after the queue is linked, awaited and deleted, leaving the ring and the live sets as before; -ENOMEM has no effect on the controller |
| Transfers.ControlSteps | src/usbd.c:223 | linking a control queue shows the device exactly one SETUP, with its packet at the queue head's address and packet size |
| Transfers.RequestLog | src/usbd.c:240-242 | a successful exchange, read as protocol steps, is one SETUP followed by a timed wait |
| Transfers.Request | src/usbd.c:232-245 | corrected request body: the DMA setup buffer is freed, the ring and every live set are as before, and the device sees the SETUP (if built) and the wait |
| Transfers.ExchangeAsWritten | src/usbd.c:240-242 | as written: the ring head is deleted instead of the new queue; it dereferences NULL exactly when building failed on an empty ring, and with other queues scheduled the new one stays |
| Transfers.RequestAsWritten | src/usbd.c:232-245 | the request body as written, with the same outcomes as `ExchangeAsWritten`, and the DMA buffer returned when it does not crash |
| Requests.SetAddress | src/usbd.c:229-246 | the device sees the SET_ADDRESS SETUP on the pipe's address and packet size, then a wait; nothing stays allocated (with the corrected exchange of the Findings table) |
| Requests.GetDescriptor | src/usbd.c:249-266 | the device sees GET_DESCRIPTOR for the type, index and size, then a wait; nothing stays allocated (with the corrected exchange of the Findings table) |
| Requests.GetConfigurationDescriptor | src/usbd.c:269-272 | GET_DESCRIPTOR of the configuration descriptor with the given index and length |
| Requests.GetDeviceDescriptor | src/usbd.c:293-296 | GET_DESCRIPTOR of the 18-byte device descriptor, index 0 |
| Requests.SetConfiguration | src/usbd.c:299-316 | the device sees SET_CONFIGURATION with the value, then a wait; nothing stays allocated (with the corrected exchange of the Findings table) |
| Requests.SetInterface | src/usbd.c:319-336 | the device sees SET_INTERFACE with the alternate setting and the interface, then a wait; nothing stays allocated (with the corrected exchange of the Findings table) |
| Descriptors.WalkStart | src/usbd.c:451-454 | the walk visits nothing exactly when no bytes remain, and otherwise starts at the first header |
| Descriptors.WalkBounds | src/usbd.c:454-461 | every visited header lies inside the wTotalLength bytes |
| Descriptors.WalkSteps | src/usbd.c:457-461 | each visited header after the first lies bLength bytes after the previous one, whose bLength is not zero |
| Descriptors.WalkEnd | src/usbd.c:454-461 | the walk stops at a header with bLength zero or one that reaches the end of wTotalLength |
| Descriptors.DumpConfiguration | src/usbd.c:449-463 | the loop visits exactly the headers of the walk over wTotalLength bytes from the start |
| Enumeration.NewPipe | src/usbd.c:479-484 | the new device becomes the current device; its default endpoint is number 0, high speed, 64-byte packets, address 0 |
| Enumeration.Probe | src/usbd.c:486-491 | GET_DESCRIPTOR(DEVICE) on address 0 with 64-byte packets, a reset, a wait without timeout, then the descriptor is kept and the packet size becomes bMaxPacketSize0; the ring and the live sets are as before (with the corrected exchange) |
| Enumeration.Address | src/usbd.c:495-496 | SET_ADDRESS(1) on address 0, after which the device address is 1; the ring and the live sets are as before (with the corrected exchange) |
| Enumeration.Configure | src/usbd.c:498-501 | GET_DESCRIPTOR(CONFIG) of the 9-byte header, then a mapping of the rounded wTotalLength, then GET_DESCRIPTOR(CONFIG) of wTotalLength bytes into it; the ring and the live sets are as before (with the corrected exchange) |
| Enumeration.Release | src/usbd.c:503-505 | both DMA buffers and the mapping are returned, leaving the pool and the mappings as before the attach |
| Enumeration.EnumerationValues | src/usbd.c:476-501 | in the attach sequence, every SETUP before the untimed wait is GET_DESCRIPTOR(DEVICE) to address 0 with 64-byte packets; after it every SETUP uses bMaxPacketSize0; those on address 0 are SET_ADDRESS(1), those on address 1 GET_DESCRIPTOR(CONFIG), and address 0 never follows address 1 |
| Enumeration.DeviceAttach | src/usbd.c:466-507 | the device sees exactly the attach sequence; afterwards the new device (address 1, packet size bMaxPacketSize0) and its endpoint are the only records that stay allocated, and the ring, the pool and the mappings are as before (with the corrected exchange); the device record's descriptor is the DMA buffer `ddesc`, which is no longer in the pool |
| Enumeration.HandleEvents | src/usbd.c:516-522 | a device is attached only on a port change that the controller confirms, with the outcome of `DeviceAttach`; otherwise the log, the device, and every live set, the DMA pool and the mappings are unchanged; the queue heads, descriptors, pool and mappings end as they began in both cases |
| Registry.DriverCmp | src/usbd.c:525-536 | the comparison answers only 1, 0 or -1 |
| Registry.DriverCmpOrder | src/usbd.c:525-536 | the comparison is antisymmetric, zero exactly when the ports are equal, negative exactly when the first port is lower, and transitive |
| Registry.Insert | src/usbd.c:551 | insertion keeps the tree sorted by port; a port already present leaves it unchanged, otherwise the tree gains exactly the new record |
| Registry.Find | src/usbd.c:565 | lookup finds a record exactly when its port is present, and the record found has that port |
| Registry.FindAfterInsert | src/usbd.c:551-565 | after a connection the port is found: the new record if the port was new, the earlier record otherwise |
| Dispatch.Connect | src/usbd.c:539-553 | on a failed malloc -ENOMEM with the tree unchanged; otherwise EOK and the tree gains a record with the port, filter and pid and no requests |
| Dispatch.UrbData | src/usbd.c:572-577 | input data goes OUT with the input buffer and minus its size; otherwise output room goes IN with the output buffer; otherwise no data stage |
| Dispatch.ControlUrb | src/usbd.c:569-580 | the control URB builds the control transfer with the direction and buffer of `UrbData`, and the queue stays in the ring owning exactly the resources it added; when it could not be built the ring and the live sets are as before; the DMA setup buffer `setup` is no longer in the pool afterwards |
| Dispatch.BulkUrb | src/usbd.c:582-590 | a bulk URB always answers EOK; the log gains exactly the calls of an OUT bulk transfer of the input data (when there is input and its queue was built) followed by those of an IN bulk transfer into the output room (likewise), each with the fragments of `BulkStages`; the ring and the live sets end as before |
| Dispatch.UrbRequest | src/usbd.c:556-599 | -EINVAL when no driver is registered for the port; -ENOSYS for interrupt, isochronous or unknown kinds; EOK for bulk; for control, the device sees the URB's SETUP and a wait, and only a control queue that was built stays, owning exactly the resources it added |
| Dispatch.HandleMessage | src/usbd.c:613-627 | anything other than a device control message gets -EINVAL; a connect answers -ENOMEM with the tree and the records unchanged, or EOK with the tree gaining the record of the message's port, filter and pid; a URB answers with the codes of `UrbRequest` for the port; an unknown driver message leaves the error field as received; the invariant holds throughout |

## Left out

- Printing: `usb_dumpDescriptor`, `usb_dumpDeviceDescriptor` and the printing inside `usb_dumpConfiguration` are not modelled. Only the walk over the headers is.
- `usb_getInterfaceDescriptor`, `usb_getStringDescriptor` and `usb_getEndpointDescriptor` (src/usbd.c:275-290) are left out. The driver never calls them, and they are `GetDescriptor` with fixed arguments.
- `usb_deviceDetach` (src/usbd.c:510-513) only prints, so it is not modelled.
- The receive/respond loop of `msgthr`, its `continue` on a failed receive, `main` and the port creation are I/O and are not modelled. `HandleMessage` is one iteration of the dispatch.
- Concurrency between the controller's event callback and the message thread is not modelled. Each operation runs alone.
- The EHCI backend (`ehci.c`) is not part of this model. Each call is modelled by its effect on the live sets and the log.
  - `ehci_allocQtd` may take less than the requested size. Only "no more than asked, and less when something was asked" is assumed; the chunking by page is not modelled.
  - `ehci_await` returns an unconstrained result, and the port status is a parameter.
- What the device answers is a parameter of the model: `bMaxPacketSize0` and `wTotalLength`. Whether `malloc`, and the backend's `ehci_allocQh`/`ehci_allocQtd`, succeed is left open. The descriptor bytes are not written through the DMA buffers.
- `calloc` (src/usbd.c:479-480), `dma_alloc64` (src/usbd.c:232, 252, 302, 322, 473-474 and 570) and `mmap` (src/usbd.c:500) are taken to succeed. The driver dereferences their results without a check, so a failure of any of them is a NULL dereference, and that crash is not modelled.
- DMA buffers and mappings are tracked as multisets of addresses without sizes, so `munmap`'s size is not checked against `mmap`'s.
- The `abs(INT_MIN)` overflow of `usb_control` is not modelled: sizes are unbounded integers. Narrowing of request arguments to `unsigned char` and 16-bit fields is modelled by the `bv8`/`bv16` parameter types.
- Transfers.Bulk: requires a positive size. With size 0 the source would build a queue without transfers and then dereference its empty list in `usb_linkTransfers`.
- Transfers.Control: also returns the queue it built, which the source does not.
- Dispatch.UrbRequest: the source uses an uninitialised device, endpoint and lookup key. Here the device, endpoint and port are parameters. The lookup key's pid field, which the comparison ignores, is not modelled.
- Dispatch.ControlUrb: the answer is the `ehci_await` result, left unconstrained. The queue the URB built is never deleted; the model keeps it in the ring, as the source does.
- Dispatch.ControlUrb: the SETUP descriptor holds the setup packet by value (`SetupBuffer(packet)`), not the address of the DMA buffer it is copied into. The contract states that this buffer is freed while the queue stays scheduled, but not that the scheduled queue still points at the freed buffer: that aliasing is not captured.
- Dispatch.Connect: a second connect on a port already present leaves the tree unchanged, and the new record stays allocated (leaked), as in the source.
- Enumeration.DeviceAttach: the result of each request is ignored, as in the source. The contract states the steps for whatever each request returned.
- Requests.SetAddress, Requests.GetDescriptor, Requests.GetConfigurationDescriptor, Requests.GetDeviceDescriptor, Requests.SetConfiguration, Requests.SetInterface, Enumeration.Probe, Enumeration.Address, Enumeration.Configure, Enumeration.DeviceAttach and Enumeration.HandleEvents are built on the corrected exchange `Transfers.Request` of the Findings table. Their "ring and live sets as before" hold only of the corrected program. The source as written deletes the head of the ring instead, and dereferences NULL on an allocation failure with an empty ring; `Transfers.RequestAsWritten` states those outcomes.

## Findings

| source | as written | input that shows it | evidently intended | confidence | as-written member | corrected member |
|---|---|---|---|---|---|---|
| src/usbd.c:242 (also 262, 312, 332) | after the wait, `usb_deleteQueue(usbd_common.queues)` deletes the head of the ring | a standard request while another queue is scheduled, e.g. after a control URB, whose queue is never deleted: the old queue is deleted and the new one stays | delete the queue `usb_control` just built | not executed | Transfers.ExchangeAsWritten | Transfers.Exchange |
| src/usbd.c:240-242 (also 260-262, 310-312, 330-332) | `usb_deleteQueue` runs even when `usb_control` returned -ENOMEM | an allocation failure in `usb_control` while no queue is scheduled: `usbd_common.queues` is NULL and is dereferenced | delete only when a queue was built | not executed | Transfers.RequestAsWritten | Transfers.Request |
