/**
 The configuration values the storage core reads: allow-listed extensions, preview
 length, transcode bitrate and storage mode. Reading them from the environment is
 not modelled; a deployment is a `Settings` value.
 */
module Config {

  const AllowedExtensions: set<string> := {"mp3", "wav", "flac", "m4a", "ogg", "aac"}

  /** Preview length in seconds. */
  const PreviewDuration: nat := 30

  const TranscodeBitrate: string := "192k"

  /** The storage mode used when none is configured. */
  const DefaultStorageMode: string := "local"

  /** The canonical MIME type of a transcoded track. */
  const MpegMime: string := "audio/mpeg"

  datatype Settings = Settings(
    storageMode: string,
    uploadFolder: string,
    bitrate: string,
    previewSeconds: nat,
    allowed: set<string>)

  /** The base configuration with the given upload folder. */
  function Defaults(uploadFolder: string): (s: Settings)
    // Executables are not on the base allow-list; MP3 uploads are.
    ensures "mp3" in s.allowed && "exe" !in s.allowed
  {
    Settings(DefaultStorageMode, uploadFolder, TranscodeBitrate, PreviewDuration, AllowedExtensions)
  }
}
