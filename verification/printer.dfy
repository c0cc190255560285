/**
 The serial diagnostic printer, reduced to the log of what it was asked to
 print. The firmware's printer writes each call to the serial port and never
 fails; the model records each call as one entry of an appended log.
 */
module Printer {

  /**
   One printer call: `msg(text)` prints a line of text, and `keyVal(key, value)`
   prints "key: value". Only the overloads the detector uses (text and `int`)
   are represented.
   */
  datatype Entry = Msg(text: string) | KeyVal(key: string, value: int)
}
