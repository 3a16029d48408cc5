/** Starting the recorder: the steps of `startRecording`'s `try` block
    (src/App.tsx:65-91, App.tsx:17-41), shared by both front-end components. */
module Recording {

  /** How far `startRecording` got inside its `try` block: the device was
      refused, the recorder could not be constructed, the recorder was
      created (ref set, buffer emptied) but `start()` threw, or recording
      started. */
  datatype Acquisition = DeviceDenied | RecorderRejected | StartFailed | Started {
    /** The recorder ref was assigned and the buffer emptied. */
    predicate RecorderCreated() {
      StartFailed? || Started?
    }
  }
}
