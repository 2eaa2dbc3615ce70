/**
 * USB protocol values used by the host driver: transfer tokens, the
 * direction rule of a control transfer, standard setup packets, descriptor
 * headers, the page rounding of the configuration buffer and the driver's
 * error codes.
 */
module Usb {

  datatype Option<+T> = None | Some(value: T)

  /** 8-bit unsigned integers (`uint8_t` fields of descriptors, read as numbers). */
  newtype u8 = x: int | 0 <= x < 0x100

  /** 32-bit unsigned integers (`unsigned`, `size_t` on the target). */
  newtype u32 = x: int | 0 <= x < 0x1_0000_0000

  /** Error codes returned to clients and callers (values of errno.h). */
  const EOK: int := 0
  const ENOMEM: int := 12
  const EINVAL: int := 22
  const ENOSYS: int := 38

  /** PID of a transfer descriptor, EHCI 1.0 section 3.5.3. */
  datatype Token = OutToken | InToken | SetupToken

  /** Endpoint speed as encoded in a queue head, EHCI 1.0 section 3.6.2. */
  datatype Speed = FullSpeed | LowSpeed | HighSpeed

  /** Transfer type of a queue (the `transfer_*` values handed to the backend). */
  datatype TransferType = ControlTransfer | BulkTransfer

  /** Transfer type of a client request, including codes the driver does not know. */
  datatype UrbKind = UrbControl | UrbBulk | UrbInterrupt | UrbIsochronous | UrbUnknown(code: int)

  /** An 8-byte setup packet, USB 2.0 section 9.3. */
  datatype SetupPacket = SetupPacket(bmRequestType: bv8, bRequest: bv8, wValue: bv16, wIndex: bv16, wLength: bv16)

  const SETUP_PACKET_SIZE: nat := 8

  /** bmRequestType bits, USB 2.0 table 9-2. */
  const REQUEST_DIR_HOST2DEV: bv8 := 0x00
  const REQUEST_DIR_DEV2HOST: bv8 := 0x80
  const REQUEST_TYPE_STANDARD: bv8 := 0x00
  const REQUEST_RECIPIENT_DEVICE: bv8 := 0x00
  const REQUEST_RECIPIENT_INTERFACE: bv8 := 0x01

  /** Standard request codes, USB 2.0 table 9-4. */
  const SET_ADDRESS: bv8 := 5
  const GET_DESCRIPTOR: bv8 := 6
  const SET_CONFIGURATION: bv8 := 9
  const SET_INTERFACE: bv8 := 11

  /** Descriptor types, USB 2.0 table 9-5. */
  const DESC_DEVICE: bv8 := 1
  const DESC_CONFIG: bv8 := 2
  const DESC_STRING: bv8 := 3
  const DESC_INTERFACE: bv8 := 4
  const DESC_ENDPOINT: bv8 := 5

  /** Sizes of the standard descriptors, USB 2.0 tables 9-8 and 9-10. */
  const DEVICE_DESC_SIZE: bv16 := 18
  const CONFIG_DESC_SIZE: bv16 := 9

  /** The page size of the target; `cfgsz & 0xFFF == 0` says "a multiple of it". */
  const SIZE_PAGE: nat := 0x1000

  /** A standard device descriptor, USB 2.0 table 9-8. */
  datatype DeviceDescriptor = DeviceDescriptor(
    bLength: bv8, bDescriptorType: bv8, bcdUSB: bv16, bDeviceClass: bv8,
    bDeviceSubClass: bv8, bDeviceProtocol: bv8, bMaxPacketSize0: bv8,
    idVendor: bv16, idProduct: bv16, bcdDevice: bv16, iManufacturer: bv8,
    iProduct: bv8, iSerialNumber: bv8, bNumConfigurations: bv8)

  /** A client's transfer request. */
  datatype Urb = Urb(kind: UrbKind, setup: SetupPacket)

  /** The device-id filter a client registers with; the driver only copies it. */
  datatype DeviceId = DeviceId(raw: seq<bv8>)

  // ----- Direction rule of a control transfer (USB 2.0 section 8.5.3) -----

  /** Token of the data stage: OUT for a non-positive signed size, IN otherwise. */
  function DataToken(ssize: int): Token
  {
    if ssize <= 0 then OutToken else InToken
  }

  /** Token of the status stage: the opposite of the data-stage token. */
  function StatusToken(data: Token): Token
  {
    if data == OutToken then InToken else OutToken
  }

  /** The data and status stages always travel in opposite directions,
      and a control transfer without data stage has an IN status stage. */
  lemma DirectionRule(ssize: int)
    ensures DataToken(ssize) != SetupToken && StatusToken(DataToken(ssize)) != SetupToken
    ensures StatusToken(DataToken(ssize)) != DataToken(ssize)
    ensures DataToken(ssize) == InToken <==> ssize > 0
    ensures StatusToken(DataToken(ssize)) == InToken <==> ssize <= 0
  {
  }

  // ----- Standard requests, USB 2.0 section 9.4 -----

  /** Bit 7 of bmRequestType: the data stage goes from device to host. */
  predicate DeviceToHost(p: SetupPacket)
  {
    p.bmRequestType & 0x80 == 0x80
  }

  /** Bits 6..5 of bmRequestType: 0 for a standard request. */
  function RequestType(p: SetupPacket): bv8
  {
    (p.bmRequestType >> 5) & 0x3
  }

  /** Bits 4..0 of bmRequestType: the recipient. */
  function Recipient(p: SetupPacket): bv8
  {
    p.bmRequestType & 0x1F
  }

  /** High byte of wValue (the descriptor type of GET_DESCRIPTOR). */
  function ValueHigh(p: SetupPacket): bv8
  {
    (p.wValue >> 8) as bv8
  }

  /** Low byte of wValue (the descriptor index of GET_DESCRIPTOR). */
  function ValueLow(p: SetupPacket): bv8
  {
    (p.wValue & 0xFF) as bv8
  }

  /** SET_ADDRESS (section 9.4.6): a standard host-to-device request to the device
      whose wValue carries the new address and which has no data stage. */
  function SetAddressPacket(address: bv8): (p: SetupPacket)
    ensures !DeviceToHost(p) && RequestType(p) == 0 && Recipient(p) == REQUEST_RECIPIENT_DEVICE
    ensures p.bRequest == SET_ADDRESS && ValueLow(p) == address && ValueHigh(p) == 0
    ensures p.wIndex == 0 && p.wLength == 0
  {
    SetupPacket(REQUEST_DIR_HOST2DEV | REQUEST_TYPE_STANDARD | REQUEST_RECIPIENT_DEVICE,
                SET_ADDRESS, address as bv16, 0, 0)
  }

  /** GET_DESCRIPTOR (section 9.4.3): a standard device-to-host request whose wValue
      is `descriptor << 8 | index`, so that the type and the index read back from
      its high and low byte, and whose wLength is the requested size. */
  function GetDescriptorPacket(descriptor: bv8, index: bv8, size: bv16): (p: SetupPacket)
    ensures DeviceToHost(p) && RequestType(p) == 0 && Recipient(p) == REQUEST_RECIPIENT_DEVICE
    ensures p.bRequest == GET_DESCRIPTOR && p.wIndex == 0
    ensures ValueHigh(p) == descriptor && ValueLow(p) == index
    ensures p.wLength == size
  {
    SetupPacket(REQUEST_DIR_DEV2HOST | REQUEST_TYPE_STANDARD | REQUEST_RECIPIENT_DEVICE,
                GET_DESCRIPTOR, (descriptor as bv16 << 8) | index as bv16, 0, size)
  }

  /** SET_CONFIGURATION (section 9.4.7): a standard host-to-device request to the
      device carrying the configuration value in wValue, without data stage. */
  function SetConfigurationPacket(value: bv16): (p: SetupPacket)
    ensures !DeviceToHost(p) && RequestType(p) == 0 && Recipient(p) == REQUEST_RECIPIENT_DEVICE
    ensures p.bRequest == SET_CONFIGURATION && p.wValue == value
    ensures p.wIndex == 0 && p.wLength == 0
  {
    SetupPacket(REQUEST_DIR_HOST2DEV | REQUEST_TYPE_STANDARD | REQUEST_RECIPIENT_DEVICE,
                SET_CONFIGURATION, value, 0, 0)
  }

  /** SET_INTERFACE (section 9.4.10): a standard host-to-device request addressed to
      an interface, alternate setting in wValue, interface number in wIndex. */
  function SetInterfacePacket(alt: bv16, index: bv16): (p: SetupPacket)
    ensures !DeviceToHost(p) && RequestType(p) == 0 && Recipient(p) == REQUEST_RECIPIENT_INTERFACE
    ensures p.bRequest == SET_INTERFACE && p.wValue == alt && p.wIndex == index
    ensures p.wLength == 0
  {
    SetupPacket(REQUEST_DIR_HOST2DEV | REQUEST_TYPE_STANDARD | REQUEST_RECIPIENT_INTERFACE,
                SET_INTERFACE, alt, index, 0)
  }

  // ----- Page rounding of the configuration buffer -----

  /** `(wTotalLength + SIZE_PAGE - 1) & ~(SIZE_PAGE - 1)` in 32-bit arithmetic:
      the least multiple of the page size that holds the whole configuration. */
  function RoundUpToPage(wTotalLength: bv16): (cfgsz: bv32)
    ensures wTotalLength as int <= cfgsz as int < wTotalLength as int + SIZE_PAGE
    ensures cfgsz & 0xFFF == 0
  {
    (wTotalLength as bv32 + 0xFFF) & !0xFFF
  }
}
