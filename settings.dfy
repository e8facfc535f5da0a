/**
 * The caller-supplied session settings shared by the capture device and the
 * frame renderer, and the adapter families the probe recognises.
 */
module Settings {

  /** The colour-format selector passed in from the application.  Any selector
      value other than the four named ones is `OtherFormat`. */
  datatype ColorFormat = YUYV | UYVY | RGB565 | RGBA8888 | OtherFormat(code: int)

  /** The video-standard selector passed in from the application. */
  datatype StandardId = NTSC | PAL | OtherStandard(code: int)

  /** The capture adapters `detect_device` can report. */
  datatype DeviceType = NoDevice | Utv007 | Empia | Stk1160 | Somagic

  /** DeviceSettings: node path, frame geometry, colour format, video standard
      and the number of buffers to request from the driver. */
  datatype DeviceSettings = DeviceSettings(
    deviceName: string,
    frameWidth: nat,
    frameHeight: nat,
    colorFormat: ColorFormat,
    standardId: StandardId,
    numBuffers: nat)
}
