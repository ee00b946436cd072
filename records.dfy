/**
 * The raw admission record that the pipeline reads: one row of `raw_data`.
 * The record date is given already broken into the calendar parts the
 * transformation reads (year, month, weekday).
 */
module Records {

  /** A 0/1 integer column such as `readmission`. */
  type Bit = b: int | 0 <= b <= 1

  /** A calendar month as pandas' `.dt.month` reports it. */
  type Month = m: int | 1 <= m <= 12 witness 1

  datatype Gender = Male | Female

  datatype AdmissionType = Emergency | Elective | Urgent

  datatype Weekday = Monday | Tuesday | Wednesday | Thursday | Friday | Saturday | Sunday

  /** The parts of `record_date` that the transformation uses. */
  datatype Timestamp = Timestamp(year: int, month: Month, dayOfWeek: Weekday)

  datatype RawRecord = RawRecord(
    patientId: string,
    recordDate: Timestamp,
    age: int,
    gender: Gender,
    county: string,
    condition: string,
    admissionType: AdmissionType,
    lengthOfStay: real,
    totalCost: real,
    readmission: Bit
  )
}
