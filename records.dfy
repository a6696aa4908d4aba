/**
 * The records the student view reads and stores (the `Classroom` and
 * `Activity` interfaces of src/components/StudentHome.tsx).
 */
module Records {
  import opened Wrappers

  /** A classroom; `originalTeacherId` is set on the copy a student keeps after joining. */
  datatype Classroom = Classroom(
    id: string,
    teacherId: string,
    name: string,
    code: string,
    createdAt: string,
    originalTeacherId: Option<string>)

  /** An activity posted to a classroom; the learning style is the stored string tag. */
  datatype Activity = Activity(
    id: string,
    classroomId: string,
    teacherId: string,
    title: string,
    description: string,
    learningStyle: string,
    createdAt: string,
    fileUrl: Option<string>,
    fileName: Option<string>,
    fileType: Option<string>)
}
